/*
 * Register transfers of lib/lowlevel.c: every access first checks its
 * arguments, then selects the subdevice, then positions the file (for byte
 * transfers) and finally moves the data. The first step that fails ends the
 * access with -1 and an error recorded in flink_errno.
 */
module LowLevel {
  import opened FlinkLib
  import opened Errors
  import opened Registers
  import opened Types
  import opened Valid
  import opened Control

  // ---------------------------------------------------------------------
  // Byte transfers

  /** A byte transfer at offset gets as far as the data step. */
  predicate Reaches(sub: Subdevice, offset: u32, io: Io)
  {
    ValidateFlinkSubdev(sub) && Selects(sub, io.select) && io.seek.ret == offset
  }

  /** The system calls a transfer issues, in order, up to the first that fails. */
  function Issued(sub: Subdevice, offset: u32, checked: bool, io: Io, last: Call): (cs: seq<Call>)
    ensures |cs| <= 3
    ensures Reaches(sub, offset, io) && checked <==> |cs| == 3
  {
    if !checked || !ValidateFlinkSubdev(sub) || !ValidateFlinkDev(sub.parent) then []
    else if io.select.ret < 0 then [Ioctl(SelectSubdevice(sub.id))]
    else if io.seek.ret != offset then [Ioctl(SelectSubdevice(sub.id)), Seek(offset)]
    else [Ioctl(SelectSubdevice(sub.id)), Seek(offset), last]
  }

  /** The device file state after the selection and seek of a transfer whose checks passed. */
  function Positioned(s: FileState, sub: Subdevice, offset: u32, io: Io): FileState
  {
    var s1 := SelectOn(s, sub, 0, io.select);
    if !Selects(sub, io.select) then s1 else SeekState(s1, offset, io.seek)
  }

  /** The device file state after flink_read; nonNull says whether rdata was a real buffer. */
  function ReadFileState(s: FileState, sub: Subdevice, offset: u32, size: int, nonNull: bool, io: Io): FileState
  {
    if !nonNull || !ValidateFlinkSubdev(sub) then s
    else if !Reaches(sub, offset, io) then Positioned(s, sub, offset, io)
    else ReadState(Positioned(s, sub, offset, io), size, io.xfer)
  }

  /** The device file state after flink_write. */
  function WriteFileState(s: FileState, sub: Subdevice, offset: u32, size: nat, wdata: Option<seq<bv8>>, io: Io): FileState
    requires io.xfer.ret <= size
    requires wdata.Some? ==> size <= |wdata.value|
  {
    if wdata.None? || !ValidateFlinkSubdev(sub) then s
    else if !Reaches(sub, offset, io) then Positioned(s, sub, offset, io)
    else WriteState(Positioned(s, sub, offset, io), wdata.value[..size], io.xfer)
  }

  /** errno after a transfer: set by the last system call that failed. */
  function TransferErrno(e: int, sub: Subdevice, offset: u32, checked: bool, io: Io): int
  {
    if !checked || !ValidateFlinkSubdev(sub) || !ValidateFlinkDev(sub.parent) then e
    else if io.select.ret < 0 then io.select.errno
    else if io.seek.ret != offset then ErrnoAfter(e, io.seek)
    else ErrnoAfter(ErrnoAfter(e, io.seek), io.xfer)
  }

  /** The buffer after a read: the bytes that arrived, then what was there before. */
  function Filled(before: seq<bv8>, m: Mem, sub: Subdevice, offset: u32, io: Io): (after: seq<bv8>)
    requires io.xfer.ret <= |before|
    ensures |after| == |before|
  {
    if Reaches(sub, offset, io) && io.xfer.ret >= 0
    then Bytes(m, sub.id, offset, io.xfer.ret) + before[io.xfer.ret..]
    else before
  }

  /**
   * A read never changes a register; the kernel ends up addressing sub at
   * the first byte after the data; and the calls go select, seek, read.
   */
  lemma ReadFileStateEffect(s: FileState, sub: Subdevice, offset: u32, size: int, nonNull: bool, io: Io)
    ensures ReadFileState(s, sub, offset, size, nonNull, io).mem == s.mem
    ensures ReadFileState(s, sub, offset, size, nonNull, io).calls ==
      s.calls + Issued(sub, offset, nonNull, io, Read(size))
    ensures nonNull && Reaches(sub, offset, io) ==>
      ReadFileState(s, sub, offset, size, nonNull, io).selected == sub.id &&
      ReadFileState(s, sub, offset, size, nonNull, io).pos == offset + (if io.xfer.ret >= 0 then io.xfer.ret else 0)
  {
  }

  /**
   * A write stores exactly the bytes the kernel accepted, at offset of sub,
   * and only when every earlier step succeeded; the calls go select, seek,
   * write.
   */
  lemma WriteFileStateEffect(s: FileState, sub: Subdevice, offset: u32, size: nat, wdata: Option<seq<bv8>>, io: Io)
    requires io.xfer.ret <= size
    requires wdata.Some? ==> size <= |wdata.value|
    ensures WriteFileState(s, sub, offset, size, wdata, io).mem ==
      if wdata.Some? && Reaches(sub, offset, io) && io.xfer.ret >= 0
      then StoreBytes(s.mem, sub.id, offset, wdata.value[..io.xfer.ret])
      else s.mem
    ensures wdata.Some? ==>
      WriteFileState(s, sub, offset, size, wdata, io).calls ==
      s.calls + Issued(sub, offset, true, io, Write(wdata.value[..size]))
    ensures wdata.None? ==> WriteFileState(s, sub, offset, size, wdata, io) == s
  {
    SelectOnEffect(s, sub, 0, io.select);
    if wdata.Some? && Reaches(sub, offset, io) {
      var p := Positioned(s, sub, offset, io);
      assert p.selected == sub.id && p.pos == offset && p.mem == s.mem;
      if io.xfer.ret >= 0 {
        assert wdata.value[..size][..io.xfer.ret] == wdata.value[..io.xfer.ret];
      }
    }
  }

  /** A register written whole by one transfer reads back whole by the next. */
  lemma WriteThenRead(s: FileState, sub: Subdevice, offset: u32, data: seq<bv8>, io1: Io, io2: Io, before: seq<bv8>)
    requires |data| == 4 && |before| == 4
    requires Reaches(sub, offset, io1) && io1.xfer.ret == 4
    requires Reaches(sub, offset, io2) && io2.xfer.ret == 4
    ensures Filled(before, WriteFileState(s, sub, offset, 4, Some(data), io1).mem, sub, offset, io2) == data
  {
    WriteFileStateEffect(s, sub, offset, 4, Some(data), io1);
    StoreBytesReadBack(s.mem, sub.id, offset, data, sub.id, offset, 4);
    assert data[..4] == data;
  }

  /** A register write, whatever its outcome, leaves every register it does not overlap as it was. */
  lemma WriteLeavesOthers(s: FileState, sub: Subdevice, offset: u32, data: seq<bv8>, io1: Io,
                          offset': u32, io2: Io, before: seq<bv8>)
    requires |data| == 4 && |before| == 4 && io1.xfer.ret <= 4 && io2.xfer.ret <= 4
    requires offset + 4 <= offset' || offset' + 4 <= offset
    ensures Filled(before, WriteFileState(s, sub, offset, 4, Some(data), io1).mem, sub, offset', io2) ==
            Filled(before, s.mem, sub, offset', io2)
  {
    WriteFileStateEffect(s, sub, offset, 4, Some(data), io1);
    if Reaches(sub, offset, io1) && io1.xfer.ret >= 0 && io2.xfer.ret >= 0 {
      StoreBytesReadBack(s.mem, sub.id, offset, data[..io1.xfer.ret], sub.id, offset', io2.xfer.ret);
    }
  }

  /**
   * flink_read: read size bytes at offset of sub into rdata and return how
   * many arrived, or -1.
   */
  method FlinkRead(sub: Subdevice, offset: u32, size: u8, rdata: array?<bv8>, io: Io, err: ErrorState) returns (r: int)
    requires -1 <= io.xfer.ret <= size
    requires rdata != null ==> size <= rdata.Length
    modifies rdata, FileOf(sub.parent), err
    ensures r == if rdata != null && Reaches(sub, offset, io) then io.xfer.ret else EXIT_ERROR
    ensures sub.parent != null ==>
      sub.parent.file.st == ReadFileState(old(sub.parent.file.st), sub, offset, size, rdata != null, io)
    ensures rdata != null ==> rdata[..] == Filled(old(rdata[..]), old(MemOf(sub.parent)), sub, offset, io)
    ensures err.errno == TransferErrno(old(err.errno), sub, offset, rdata != null, io)
    ensures rdata == null ==> err.flinkErrno == FLINK_ENULLPTR
    ensures rdata != null && !ValidateFlinkSubdev(sub) ==> err.flinkErrno == FLINK_EINVALDEV
    ensures rdata != null && ValidateFlinkSubdev(sub) && !Selects(sub, io.select) ==>
      err.flinkErrno == FLINK_EINVALSUBDEV
    ensures rdata != null && ValidateFlinkSubdev(sub) && Selects(sub, io.select) ==>
      err.flinkErrno == if r == EXIT_ERROR then err.errno else old(err.flinkErrno)
  {
    if rdata == null {
      err.FlinkError(FLINK_ENULLPTR);
      return EXIT_ERROR;
    }
    if !ValidateFlinkSubdev(sub) {
      err.FlinkError(FLINK_EINVALDEV);
      return EXIT_ERROR;
    }
    var sel := SubdeviceSelect(sub, 0, io.select, err);
    if sel < 0 {
      err.FlinkError(FLINK_EINVALSUBDEV);
      return EXIT_ERROR;
    }
    var pos := sub.parent.file.Lseek(offset, io.seek, err);
    if pos != offset {
      err.LibcError();
      return EXIT_ERROR;
    }
    r := sub.parent.file.DoRead(rdata, size, io.xfer, err);
    if r == -1 {
      err.LibcError();
      return EXIT_ERROR;
    }
  }

  /**
   * flink_write: write size bytes of wdata at offset of sub and return how
   * many the kernel took, or -1.
   */
  method FlinkWrite(sub: Subdevice, offset: u32, size: u8, wdata: Option<seq<bv8>>, io: Io, err: ErrorState) returns (r: int)
    requires -1 <= io.xfer.ret <= size
    requires wdata.Some? ==> size <= |wdata.value|
    modifies FileOf(sub.parent), err
    ensures r == if wdata.Some? && Reaches(sub, offset, io) then io.xfer.ret else EXIT_ERROR
    ensures sub.parent != null ==>
      sub.parent.file.st == WriteFileState(old(sub.parent.file.st), sub, offset, size, wdata, io)
    ensures err.errno == TransferErrno(old(err.errno), sub, offset, wdata.Some?, io)
    ensures wdata.None? ==> err.flinkErrno == FLINK_ENULLPTR
    ensures wdata.Some? && !ValidateFlinkSubdev(sub) ==> err.flinkErrno == FLINK_EINVALDEV
    ensures wdata.Some? && ValidateFlinkSubdev(sub) && !Selects(sub, io.select) ==>
      err.flinkErrno == FLINK_EINVALSUBDEV
    ensures wdata.Some? && ValidateFlinkSubdev(sub) && Selects(sub, io.select) ==>
      err.flinkErrno == if r == EXIT_ERROR then err.errno else old(err.flinkErrno)
  {
    if wdata.None? {
      err.FlinkError(FLINK_ENULLPTR);
      return EXIT_ERROR;
    }
    if !ValidateFlinkSubdev(sub) {
      err.FlinkError(FLINK_EINVALDEV);
      return EXIT_ERROR;
    }
    var sel := SubdeviceSelect(sub, 0, io.select, err);
    if sel < 0 {
      err.FlinkError(FLINK_EINVALSUBDEV);
      return EXIT_ERROR;
    }
    var pos := sub.parent.file.Lseek(offset, io.seek, err);
    if pos != offset {
      err.LibcError();
      return EXIT_ERROR;
    }
    r := sub.parent.file.DoWrite(wdata, size, io.xfer, err);
    if r == -1 {
      err.LibcError();
      return EXIT_ERROR;
    }
  }

  // ---------------------------------------------------------------------
  // Single-bit transfers

  /** A single-bit access gets as far as its bit ioctl. */
  predicate BitReaches(sub: Subdevice, io: BitIo)
  {
    ValidateFlinkSubdev(sub) && Selects(sub, io.select)
  }

  /** The device file state after a single-bit access issuing cmd; checked says its pointer check passed. */
  function BitFileState(s: FileState, sub: Subdevice, checked: bool, cmd: Cmd, io: BitIo): FileState
  {
    if !checked || !ValidateFlinkSubdev(sub) then s
    else if !Selects(sub, io.select) then SelectOn(s, sub, 0, io.select)
    else IoctlState(SelectOn(s, sub, 0, io.select), cmd, io.op)
  }

  /** errno after a single-bit access. */
  function BitErrno(e: int, sub: Subdevice, checked: bool, io: BitIo): int
  {
    if !checked || !ValidateFlinkSubdev(sub) || !ValidateFlinkDev(sub.parent) then e
    else if io.select.ret < 0 then io.select.errno
    else ErrnoAfter(e, io.op)
  }

  /** The value a successful READ_SINGLE_BIT reports: bit of the register at offset of sub. */
  function BitValue(m: Mem, sub: Subdevice, offset: u32, bit: BitIndex): u8 {
    BitOf(WordAt(m, sub.id, offset), bit)
  }

  /**
   * A bit read changes no register; a bit write that reaches the driver
   * sets the bit when value is nonzero and clears it otherwise, at the
   * register of sub (not whichever subdevice was selected before), and
   * changes nothing when any step fails.
   */
  lemma BitFileStateEffect(s: FileState, sub: Subdevice, checked: bool, offset: u32, bit: BitIndex, value: u8, io: BitIo)
    ensures BitFileState(s, sub, checked, ReadSingleBit(offset, bit, value), io).mem == s.mem
    ensures BitFileState(s, sub, checked, WriteSingleBit(offset, bit, value), io).mem ==
      if checked && BitReaches(sub, io) && io.op.ret >= 0
      then StoreBit(s.mem, sub.id, offset, bit, value != 0)
      else s.mem
  {
    SelectOnEffect(s, sub, 0, io.select);
  }

  /** A bit written through the driver reads back as 1 exactly when the value written was nonzero. */
  lemma BitWriteThenRead(s: FileState, sub: Subdevice, offset: u32, bit: BitIndex, value: u8, io1: BitIo)
    requires BitReaches(sub, io1) && io1.op.ret >= 0
    ensures BitValue(BitFileState(s, sub, true, WriteSingleBit(offset, bit, value), io1).mem, sub, offset, bit) ==
      if value != 0 then 1 else 0
  {
    BitFileStateEffect(s, sub, true, offset, bit, value, io1);
    StoreBitReadBack(s.mem, sub.id, offset, bit, value != 0, bit);
  }

  /**
   * A bit write, whatever its outcome, leaves every other bit of its
   * register and every register it does not overlap as they were.
   */
  lemma BitWriteLeavesOthers(s: FileState, sub: Subdevice, offset: u32, bit: BitIndex, value: u8, io1: BitIo,
                             offset': u32, bit': BitIndex)
    requires (offset == offset' && bit != bit') || offset + 4 <= offset' || offset' + 4 <= offset
    ensures BitValue(BitFileState(s, sub, true, WriteSingleBit(offset, bit, value), io1).mem, sub, offset', bit') ==
            BitValue(s.mem, sub, offset', bit')
  {
    BitFileStateEffect(s, sub, true, offset, bit, value, io1);
    if BitReaches(sub, io1) && io1.op.ret >= 0 {
      if offset == offset' {
        StoreBitReadBack(s.mem, sub.id, offset, bit, value != 0, bit');
      } else {
        var w := WordBytes(SetBit(WordAt(s.mem, sub.id, offset), bit, value != 0));
        StoreBytesReadBack(s.mem, sub.id, offset, w, sub.id, offset', 4);
      }
    }
  }

  /**
   * flink_read_bit: store bit of the register at offset of sub into the
   * byte rdata points to; 0 on success, -1 otherwise.
   */
  method FlinkReadBit(sub: Subdevice, offset: u32, bit: BitIndex, rdata: array?<u8>, io: BitIo, err: ErrorState)
    returns (r: int)
    requires rdata != null ==> 1 <= rdata.Length
    modifies rdata, FileOf(sub.parent), err
    ensures r == if rdata != null && BitReaches(sub, io) && io.op.ret >= 0 then EXIT_SUCCESS else EXIT_ERROR
    ensures sub.parent != null ==>
      sub.parent.file.st == BitFileState(old(sub.parent.file.st), sub, rdata != null, ReadSingleBit(offset, bit, 0), io)
    ensures rdata != null ==>
      rdata[..] == if r == EXIT_SUCCESS
                   then old(rdata[..])[0 := BitValue(old(MemOf(sub.parent)), sub, offset, bit)]
                   else old(rdata[..])
    ensures err.errno == BitErrno(old(err.errno), sub, rdata != null, io)
    ensures rdata == null ==> err.flinkErrno == FLINK_ENULLPTR
    ensures rdata != null && !ValidateFlinkSubdev(sub) ==> err.flinkErrno == FLINK_EINVALDEV
    ensures rdata != null && ValidateFlinkSubdev(sub) && !Selects(sub, io.select) ==>
      err.flinkErrno == FLINK_EINVALSUBDEV
    ensures rdata != null && ValidateFlinkSubdev(sub) && Selects(sub, io.select) ==>
      err.flinkErrno == if r == EXIT_ERROR then err.errno else old(err.flinkErrno)
  {
    var arg := ReadSingleBit(offset, bit, 0);
    if rdata == null {
      err.FlinkError(FLINK_ENULLPTR);
      return EXIT_ERROR;
    }
    if !ValidateFlinkSubdev(sub) {
      err.FlinkError(FLINK_EINVALDEV);
      return EXIT_ERROR;
    }
    var sel := SubdeviceSelect(sub, 0, io.select, err);
    if sel < 0 {
      err.FlinkError(FLINK_EINVALSUBDEV);
      return EXIT_ERROR;
    }
    ghost var selected := sub.parent.file.st;
    SelectOnEffect(old(sub.parent.file.st), sub, 0, io.select);
    var ret, reply := FlinkIoctl(sub.parent, arg, io.op, err);
    if ret < 0 {
      err.LibcError();
      return EXIT_ERROR;
    }
    assert reply.value == BitValue(selected.mem, sub, offset, bit);
    rdata[0] := reply.value;
    return EXIT_SUCCESS;
  }

  /**
   * flink_write_bit: set (value nonzero) or clear (value 0) bit of the
   * register at offset of sub; 0 on success, -1 otherwise. The source reads
   * the byte behind wdata before its null check, so a caller always
   * supplies the byte and the model takes it by value.
   */
  method FlinkWriteBit(sub: Subdevice, offset: u32, bit: BitIndex, value: u8, io: BitIo, err: ErrorState)
    returns (r: int)
    modifies FileOf(sub.parent), err
    ensures r == if BitReaches(sub, io) && io.op.ret >= 0 then EXIT_SUCCESS else EXIT_ERROR
    ensures sub.parent != null ==>
      sub.parent.file.st == BitFileState(old(sub.parent.file.st), sub, true, WriteSingleBit(offset, bit, value), io)
    ensures err.errno == BitErrno(old(err.errno), sub, true, io)
    ensures !ValidateFlinkSubdev(sub) ==> err.flinkErrno == FLINK_EINVALDEV
    ensures ValidateFlinkSubdev(sub) && !Selects(sub, io.select) ==> err.flinkErrno == FLINK_EINVALSUBDEV
    ensures ValidateFlinkSubdev(sub) && Selects(sub, io.select) ==>
      err.flinkErrno == if r == EXIT_ERROR then err.errno else old(err.flinkErrno)
  {
    var arg := WriteSingleBit(offset, bit, value);
    if !ValidateFlinkSubdev(sub) {
      err.FlinkError(FLINK_EINVALDEV);
      return EXIT_ERROR;
    }
    var sel := SubdeviceSelect(sub, 0, io.select, err);
    if sel < 0 {
      err.FlinkError(FLINK_EINVALSUBDEV);
      return EXIT_ERROR;
    }
    var ret, _ := FlinkIoctl(sub.parent, arg, io.op, err);
    if ret < 0 {
      err.LibcError();
      return EXIT_ERROR;
    }
    return EXIT_SUCCESS;
  }

  // ---------------------------------------------------------------------
  // Outcomes of the register accessors built on these transfers. Every
  // accessor reports a failure by calling libc_error, so after a failed
  // accessor flink_errno equals errno.

  /** An accessor read the 4-byte register at offset of sub into out. */
  twostate predicate WordRead(sub: Subdevice, offset: u32, out: array?<bv8>, io: Io, err: ErrorState, r: int)
    requires out != null ==> 4 <= out.Length
    requires io.xfer.ret <= 4
    reads FileOf(sub.parent), out, err
  {
    && (r == EXIT_SUCCESS || r == EXIT_ERROR)
    && (r == EXIT_SUCCESS <==> out != null && Reaches(sub, offset, io) && io.xfer.ret == 4)
    && (sub.parent != null ==>
          sub.parent.file.st == ReadFileState(old(sub.parent.file.st), sub, offset, 4, out != null, io))
    && (out != null ==> out[..] == Filled(old(out[..]), old(MemOf(sub.parent)), sub, offset, io))
    && err.errno == TransferErrno(old(err.errno), sub, offset, out != null, io)
    && err.flinkErrno == if r == EXIT_SUCCESS then old(err.flinkErrno) else err.errno
  }

  /** An accessor wrote the register value data (4 bytes) at offset of sub. */
  twostate predicate WordWritten(sub: Subdevice, offset: u32, data: seq<bv8>, io: Io, err: ErrorState, r: int)
    requires |data| == 4 && io.xfer.ret <= 4
    reads FileOf(sub.parent), err
  {
    && (r == EXIT_SUCCESS || r == EXIT_ERROR)
    && (r == EXIT_SUCCESS <==> Reaches(sub, offset, io) && io.xfer.ret == 4)
    && (sub.parent != null ==>
          sub.parent.file.st == WriteFileState(old(sub.parent.file.st), sub, offset, 4, Some(data), io))
    && err.errno == TransferErrno(old(err.errno), sub, offset, true, io)
    && err.flinkErrno == if r == EXIT_SUCCESS then old(err.flinkErrno) else err.errno
  }

  /** An accessor read bit of the register at offset of sub into out[0]. */
  twostate predicate BitRead(sub: Subdevice, offset: u32, bit: BitIndex, out: array?<u8>, io: BitIo, err: ErrorState, r: int)
    requires out != null ==> 1 <= out.Length
    reads FileOf(sub.parent), out, err
  {
    && (r == EXIT_SUCCESS <==> out != null && BitReaches(sub, io) && io.op.ret >= 0)
    && (r == EXIT_SUCCESS || r == EXIT_ERROR)
    && (sub.parent != null ==>
          sub.parent.file.st == BitFileState(old(sub.parent.file.st), sub, out != null, ReadSingleBit(offset, bit, 0), io))
    && (out != null ==>
          out[..] == if r == EXIT_SUCCESS
                     then old(out[..])[0 := BitValue(old(MemOf(sub.parent)), sub, offset, bit)]
                     else old(out[..]))
    && err.errno == BitErrno(old(err.errno), sub, out != null, io)
    && err.flinkErrno == if r == EXIT_SUCCESS then old(err.flinkErrno) else err.errno
  }

  /** An accessor wrote value (nonzero sets) to bit of the register at offset of sub. */
  twostate predicate BitWritten(sub: Subdevice, offset: u32, bit: BitIndex, value: u8, io: BitIo, err: ErrorState, r: int)
    reads FileOf(sub.parent), err
  {
    && (r == EXIT_SUCCESS || r == EXIT_ERROR)
    && (r == EXIT_SUCCESS <==> BitReaches(sub, io) && io.op.ret >= 0)
    && (sub.parent != null ==>
          sub.parent.file.st == BitFileState(old(sub.parent.file.st), sub, true, WriteSingleBit(offset, bit, value), io))
    && err.errno == BitErrno(old(err.errno), sub, true, io)
    && err.flinkErrno == if r == EXIT_SUCCESS then old(err.flinkErrno) else err.errno
  }
}
