/*
 * The fLink device file as seen through its system calls: a byte-addressed
 * register space per subdevice, the kernel's record of the selected
 * subdevice and the file position, and the table of subdevice descriptors
 * the driver reports. Every system call takes an Answer that decides whether
 * it succeeds, so that every failure path of the library can be reached.
 */
module Registers {
  import opened FlinkLib
  import opened Errors

  // ---------------------------------------------------------------------
  // Words and bits

  /** The four bytes of a register, least significant first (little-endian host). */
  function WordBytes(w: bv32): (bs: seq<bv8>)
    ensures |bs| == 4
  {
    [(w & 0xFF) as bv8, ((w >> 8) & 0xFF) as bv8,
     ((w >> 16) & 0xFF) as bv8, ((w >> 24) & 0xFF) as bv8]
  }

  /** The register value held by four bytes, least significant first. */
  function WordOf(bs: seq<bv8>): bv32
    requires |bs| == 4
  {
    (bs[0] as bv32) | (bs[1] as bv32 << 8) | (bs[2] as bv32 << 16) | (bs[3] as bv32 << 24)
  }

  lemma WordBytesRoundTrip(w: bv32)
    ensures WordOf(WordBytes(w)) == w
  {
  }

  lemma WordOfRoundTrip(bs: seq<bv8>)
    requires |bs| == 4
    ensures WordBytes(WordOf(bs)) == bs
  {
  }

  /** The register value with only bit b set. */
  function Mask(b: BitIndex): bv32 {
    (1 as bv32) << (b as bv5)
  }

  /** Value (0 or 1) of bit b of a register. */
  function BitOf(w: bv32, b: BitIndex): u8 {
    if w & Mask(b) != 0 then 1 else 0
  }

  /** The register with bit b set (v) or cleared (!v). */
  function SetBit(w: bv32, b: BitIndex, v: bool): bv32 {
    if v then w | Mask(b) else w & !Mask(b)
  }

  lemma MaskDisjoint(b: BitIndex, c: BitIndex)
    requires b != c
    ensures Mask(b) & Mask(c) == 0
  {
  }

  /** Setting one bit changes that bit to v and leaves all others as they were. */
  lemma SetBitReadBack(w: bv32, b: BitIndex, c: BitIndex, v: bool)
    ensures BitOf(SetBit(w, b, v), b) == if v then 1 else 0
    ensures c != b ==> BitOf(SetBit(w, b, v), c) == BitOf(w, c)
  {
    if c != b {
      MaskDisjoint(b, c);
    }
  }

  // ---------------------------------------------------------------------
  // Register memory

  /** Byte offset inside the register space of one subdevice. */
  datatype Addr = Addr(sub: int, offset: int)

  /** The bytes written so far, per subdevice id and then per offset. */
  datatype Mem = Mem(banks: map<int, map<int, bv8>>)

  /** Register contents before anything is written: every byte reads as zero. */
  const EMPTY_MEM := Mem(map[])

  /** The bytes written so far in the register space of subdevice sub. */
  function Bank(m: Mem, sub: int): map<int, bv8> {
    if sub in m.banks then m.banks[sub] else map[]
  }

  /** Registers never written read as zero. */
  function ByteAt(m: Mem, a: Addr): bv8 {
    var bank := Bank(m, a.sub);
    if a.offset in bank then bank[a.offset] else 0
  }

  /** The memory after the byte at offset off of subdevice sub is set to b. */
  function StoreByte(m: Mem, sub: int, off: int, b: bv8): (m': Mem)
    ensures forall a: Addr :: ByteAt(m', a) == if a == Addr(sub, off) then b else ByteAt(m, a)
  {
    Mem(m.banks[sub := Bank(m, sub)[off := b]])
  }

  /** n consecutive bytes of subdevice sub, starting at offset off. */
  function Bytes(m: Mem, sub: int, off: int, n: nat): (bs: seq<bv8>)
    ensures |bs| == n
    ensures forall k :: 0 <= k < n ==> bs[k] == ByteAt(m, Addr(sub, off + k))
    decreases n
  {
    if n == 0 then [] else [ByteAt(m, Addr(sub, off))] + Bytes(m, sub, off + 1, n - 1)
  }

  /** The memory after bytes bs are written to subdevice sub from offset off on. */
  function StoreBytes(m: Mem, sub: int, off: int, bs: seq<bv8>): Mem
    decreases |bs|
  {
    if |bs| == 0 then m
    else StoreBytes(StoreByte(m, sub, off, bs[0]), sub, off + 1, bs[1..])
  }

  /** Every byte of the stored range holds its new value; all other bytes keep theirs. */
  lemma {:induction false} StoreBytesAt(m: Mem, sub: int, off: int, bs: seq<bv8>, a: Addr)
    ensures ByteAt(StoreBytes(m, sub, off, bs), a) ==
      (if a.sub == sub && off <= a.offset < off + |bs| then bs[a.offset - off] else ByteAt(m, a))
    decreases |bs|
  {
    if |bs| > 0 {
      StoreBytesAt(StoreByte(m, sub, off, bs[0]), sub, off + 1, bs[1..], a);
    }
  }

  /** The 32-bit register of subdevice sub at byte offset off. */
  function WordAt(m: Mem, sub: int, off: int): bv32 {
    WordOf(Bytes(m, sub, off, 4))
  }

  /** The memory after bit b of the register at off is set to v. */
  function StoreBit(m: Mem, sub: int, off: int, b: BitIndex, v: bool): Mem {
    StoreBytes(m, sub, off, WordBytes(SetBit(WordAt(m, sub, off), b, v)))
  }

  /** Bytes that were stored read back; bytes elsewhere are unaffected. */
  lemma StoreBytesReadBack(m: Mem, sub: int, off: int, bs: seq<bv8>, sub': int, off': int, n: nat)
    ensures sub' == sub && off' == off && n == |bs| ==> Bytes(StoreBytes(m, sub, off, bs), sub', off', n) == bs
    ensures sub' != sub || off' + n <= off || off + |bs| <= off' ==>
      Bytes(StoreBytes(m, sub, off, bs), sub', off', n) == Bytes(m, sub', off', n)
  {
    var before := Bytes(m, sub', off', n);
    var after := Bytes(StoreBytes(m, sub, off, bs), sub', off', n);
    forall k | 0 <= k < n
      ensures after[k] == if sub' == sub && off <= off' + k < off + |bs| then bs[off' + k - off] else before[k]
    {
      StoreBytesAt(m, sub, off, bs, Addr(sub', off' + k));
    }
  }

  /** A register written whole reads back as the value written. */
  lemma StoreWordReadBack(m: Mem, sub: int, off: int, w: bv32)
    ensures WordAt(StoreBytes(m, sub, off, WordBytes(w)), sub, off) == w
  {
    StoreBytesReadBack(m, sub, off, WordBytes(w), sub, off, 4);
    WordBytesRoundTrip(w);
  }

  /**
   * A single-bit write changes exactly that bit: it reads back as v, other
   * bits of the register and all registers not overlapping it are unchanged.
   */
  lemma StoreBitReadBack(m: Mem, sub: int, off: int, b: BitIndex, v: bool, c: BitIndex)
    ensures BitOf(WordAt(StoreBit(m, sub, off, b, v), sub, off), b) == if v then 1 else 0
    ensures c != b ==> BitOf(WordAt(StoreBit(m, sub, off, b, v), sub, off), c) == BitOf(WordAt(m, sub, off), c)
  {
    StoreWordReadBack(m, sub, off, SetBit(WordAt(m, sub, off), b, v));
    SetBitReadBack(WordAt(m, sub, off), b, c, v);
  }

  // ---------------------------------------------------------------------
  // What the driver reports about a subdevice

  /** The fields the kernel fills for READ_SUBDEVICE_INFO. */
  datatype Descriptor = Descriptor(
    functionId: u16,
    subFunctionId: u8,
    functionVersion: u8,
    baseAddr: u32,
    memSize: u32,
    nofChannels: u32,
    uniqueId: u32)

  const ZERO_DESCRIPTOR := Descriptor(0, 0, 0, 0, 0, 0, 0)

  /** The descriptors of one device: their count fits the 8-bit id space. */
  type Table = t: seq<Descriptor> | |t| < 0x100

  /** The descriptor of subdevice id; unknown ids describe nothing. */
  function Describe(table: Table, id: int): Descriptor {
    if 0 <= id < |table| then table[id] else ZERO_DESCRIPTOR
  }

  // ---------------------------------------------------------------------
  // System calls

  /** The ioctl commands of include/flinkioctl.h with their argument. */
  datatype Cmd =
    | SelectSubdevice(id: u8)
    | SelectSubdeviceExcl(id: u8)
    | ReadNofSubdevices(nof: int)
    | ReadSubdeviceInfo(sid: u8, desc: Descriptor)
    | ReadSingleBit(offset: u32, bit: BitIndex, value: u8)
    | WriteSingleBit(offset: u32, bit: BitIndex, value: u8)

  /** The numeric ioctl request code of a command. */
  function Code(c: Cmd): (n: int)
    ensures 0x10 <= n <= 0x31
  {
    match c
    case SelectSubdevice(_) => 0x10
    case SelectSubdeviceExcl(_) => 0x11
    case ReadNofSubdevices(_) => 0x20
    case ReadSubdeviceInfo(_, _) => 0x21
    case ReadSingleBit(_, _, _) => 0x30
    case WriteSingleBit(_, _, _) => 0x31
  }

  /** The command codes are distinct. */
  lemma CodeInjective(c: Cmd, d: Cmd)
    requires Code(c) == Code(d)
    ensures c.SelectSubdevice? == d.SelectSubdevice? && c.SelectSubdeviceExcl? == d.SelectSubdeviceExcl?
    ensures c.ReadNofSubdevices? == d.ReadNofSubdevices? && c.ReadSubdeviceInfo? == d.ReadSubdeviceInfo?
    ensures c.ReadSingleBit? == d.ReadSingleBit? && c.WriteSingleBit? == d.WriteSingleBit?
  {
  }

  /** Outcome of one system call: its return value and, when negative, errno. */
  datatype Answer = Answer(ret: int, errno: int)

  /** Outcomes of the three system calls of one register read or write. */
  datatype Io = Io(select: Answer, seek: Answer, xfer: Answer)

  /** Outcomes of the two ioctl calls of one single-bit access. */
  datatype BitIo = BitIo(select: Answer, op: Answer)

  /** One system call issued on the device file, as the kernel saw it. */
  datatype Call = Open | Close | Ioctl(cmd: Cmd) | Seek(offset: int) | Read(size: int) | Write(data: seq<bv8>)

  /**
   * The kernel-side state of an open device file: register contents, the
   * selected subdevice (-1 before any selection), whether it was selected
   * exclusively, the file position, how many descriptors are open, and the
   * system calls received so far.
   */
  datatype FileState = FileState(
    mem: Mem,
    selected: int,
    exclusive: bool,
    pos: int,
    opens: nat,
    calls: seq<Call>)

  /** errno after a system call: set by a failing call, kept otherwise. */
  function ErrnoAfter(errno: int, a: Answer): (e: int)
    ensures a.ret >= 0 ==> e == errno
    ensures a.ret < 0 ==> e == a.errno
  {
    if a.ret < 0 then a.errno else errno
  }

  /** The argument as the kernel hands it back after a successful ioctl. */
  function IoctlReply(table: Table, s: FileState, cmd: Cmd): (out: Cmd)
    ensures Code(out) == Code(cmd)
    ensures cmd.ReadNofSubdevices? ==> out.nof == |table|
    ensures cmd.ReadSubdeviceInfo? ==> out.sid == cmd.sid && out.desc == Describe(table, cmd.sid)
    ensures cmd.ReadSingleBit? ==> out == ReadSingleBit(cmd.offset, cmd.bit, BitOf(WordAt(s.mem, s.selected, cmd.offset), cmd.bit))
    ensures !cmd.ReadNofSubdevices? && !cmd.ReadSubdeviceInfo? && !cmd.ReadSingleBit? ==> out == cmd
  {
    match cmd
    case ReadNofSubdevices(_) => ReadNofSubdevices(|table|)
    case ReadSubdeviceInfo(id, _) => ReadSubdeviceInfo(id, Describe(table, id))
    case ReadSingleBit(o, b, _) => ReadSingleBit(o, b, BitOf(WordAt(s.mem, s.selected, o), b))
    case _ => cmd
  }

  /** The state after an ioctl: a failed call changes nothing but the log. */
  function IoctlState(s: FileState, cmd: Cmd, a: Answer): (s': FileState)
    ensures s'.calls == s.calls + [Ioctl(cmd)] && s'.pos == s.pos && s'.opens == s.opens
    ensures a.ret < 0 ==> s' == s.(calls := s'.calls)
    ensures a.ret >= 0 && cmd.SelectSubdevice? ==> s' == s.(calls := s'.calls, selected := cmd.id, exclusive := false)
    ensures a.ret >= 0 && cmd.SelectSubdeviceExcl? ==> s' == s.(calls := s'.calls, selected := cmd.id, exclusive := true)
    ensures a.ret >= 0 && cmd.WriteSingleBit? ==>
      s' == s.(calls := s'.calls, mem := StoreBit(s.mem, s.selected, cmd.offset, cmd.bit, cmd.value != 0))
    ensures a.ret >= 0 && (cmd.ReadNofSubdevices? || cmd.ReadSubdeviceInfo? || cmd.ReadSingleBit?) ==>
      s' == s.(calls := s'.calls)
  {
    var logged := s.(calls := s.calls + [Ioctl(cmd)]);
    if a.ret < 0 then logged
    else match cmd
      case SelectSubdevice(id) => logged.(selected := id, exclusive := false)
      case SelectSubdeviceExcl(id) => logged.(selected := id, exclusive := true)
      case WriteSingleBit(o, b, v) => logged.(mem := StoreBit(s.mem, s.selected, o, b, v != 0))
      case _ => logged
  }

  /** The state after lseek(SEEK_SET); a successful call moves the position. */
  function SeekState(s: FileState, offset: int, a: Answer): (s': FileState)
    ensures s'.mem == s.mem && s'.selected == s.selected && s'.exclusive == s.exclusive && s'.opens == s.opens
    ensures s'.calls == s.calls + [Seek(offset)]
    ensures a.ret >= 0 ==> s'.pos == a.ret
    ensures a.ret < 0 ==> s'.pos == s.pos
  {
    s.(calls := s.calls + [Seek(offset)], pos := if a.ret >= 0 then a.ret else s.pos)
  }

  /** The state after read of size bytes; a transfer of n bytes advances the position by n. */
  function ReadState(s: FileState, size: int, a: Answer): (s': FileState)
    ensures s'.mem == s.mem && s'.selected == s.selected && s'.calls == s.calls + [Read(size)]
    ensures s'.pos == if a.ret >= 0 then s.pos + a.ret else s.pos
  {
    s.(calls := s.calls + [Read(size)], pos := if a.ret >= 0 then s.pos + a.ret else s.pos)
  }

  /** The state after write; a transfer of n bytes stores the first n bytes at the position. */
  function WriteState(s: FileState, data: seq<bv8>, a: Answer): (s': FileState)
    requires a.ret <= |data|
    ensures s'.selected == s.selected && s'.calls == s.calls + [Write(data)]
    ensures a.ret >= 0 ==> s'.mem == StoreBytes(s.mem, s.selected, s.pos, data[..a.ret]) && s'.pos == s.pos + a.ret
    ensures a.ret < 0 ==> s'.mem == s.mem && s'.pos == s.pos
  {
    if a.ret < 0 then s.(calls := s.calls + [Write(data)])
    else s.(calls := s.calls + [Write(data)],
            mem := StoreBytes(s.mem, s.selected, s.pos, data[..a.ret]), pos := s.pos + a.ret)
  }

  /** The device file of one fLink device, with the driver behind it. */
  class DeviceFile {
    const table: Table
    var st: FileState

    constructor (table: Table, mem: Mem)
      ensures this.table == table && st == FileState(mem, -1, false, 0, 0, [])
    {
      this.table := table;
      st := FileState(mem, -1, false, 0, 0, []);
    }

    /** open(2); a non-negative answer is the new descriptor. */
    method Open(a: Answer, err: ErrorState) returns (fd: int)
      modifies this, err
      ensures fd == a.ret && err.errno == ErrnoAfter(old(err.errno), a) && err.flinkErrno == old(err.flinkErrno)
      ensures st == old(st).(opens := if fd >= 0 then old(st.opens) + 1 else old(st.opens),
                             calls := old(st.calls) + [Call.Open])
    {
      fd := a.ret;
      st := st.(opens := if fd >= 0 then st.opens + 1 else st.opens, calls := st.calls + [Call.Open]);
      err.errno := ErrnoAfter(err.errno, a);
    }

    /** close(2) of one of the open descriptors. */
    method Close()
      modifies this
      ensures st == old(st).(opens := if old(st.opens) > 0 then old(st.opens) - 1 else 0,
                             calls := old(st.calls) + [Call.Close])
    {
      st := st.(opens := if st.opens > 0 then st.opens - 1 else 0, calls := st.calls + [Call.Close]);
    }

    /** ioctl(2): returns the answer and the argument as filled in by the driver. */
    method DoIoctl(cmd: Cmd, a: Answer, err: ErrorState) returns (ret: int, out: Cmd)
      modifies this, err
      ensures ret == a.ret && st == IoctlState(old(st), cmd, a)
      ensures out == if a.ret >= 0 then IoctlReply(table, old(st), cmd) else cmd
      ensures err.errno == ErrnoAfter(old(err.errno), a) && err.flinkErrno == old(err.flinkErrno)
    {
      ret := a.ret;
      out := if a.ret >= 0 then IoctlReply(table, st, cmd) else cmd;
      st := IoctlState(st, cmd, a);
      err.errno := ErrnoAfter(err.errno, a);
    }

    /** lseek(2) with SEEK_SET. */
    method Lseek(offset: int, a: Answer, err: ErrorState) returns (ret: int)
      modifies this, err
      ensures ret == a.ret && st == SeekState(old(st), offset, a)
      ensures err.errno == ErrnoAfter(old(err.errno), a) && err.flinkErrno == old(err.flinkErrno)
    {
      ret := a.ret;
      st := SeekState(st, offset, a);
      err.errno := ErrnoAfter(err.errno, a);
    }

    /**
     * read(2) of size bytes into buf; the answer says how many bytes arrive.
     * A null buffer makes the kernel fail with EFAULT whatever the answer.
     */
    method DoRead(buf: array?<bv8>, size: nat, a: Answer, err: ErrorState) returns (ret: int)
      requires -1 <= a.ret <= size
      requires buf != null ==> size <= buf.Length
      modifies this, buf, err
      ensures var a' := if buf == null then Answer(-1, EFAULT) else a;
        ret == a'.ret && st == ReadState(old(st), size, a') &&
        err.errno == ErrnoAfter(old(err.errno), a') && err.flinkErrno == old(err.flinkErrno)
      ensures buf != null && ret >= 0 ==>
        buf[..ret] == Bytes(old(st.mem), old(st.selected), old(st.pos), ret) && buf[ret..] == old(buf[ret..])
      ensures buf != null && ret < 0 ==> buf[..] == old(buf[..])
    {
      var a' := if buf == null then Answer(-1, EFAULT) else a;
      ret := a'.ret;
      if buf != null && ret >= 0 {
        var data := Bytes(st.mem, st.selected, st.pos, ret);
        forall k | 0 <= k < ret {
          buf[k] := data[k];
        }
      }
      st := ReadState(st, size, a');
      err.errno := ErrnoAfter(err.errno, a');
    }

    /**
     * write(2) of size bytes from data; the answer says how many are taken.
     * A null pointer makes the kernel fail with EFAULT whatever the answer.
     */
    method DoWrite(data: Option<seq<bv8>>, size: nat, a: Answer, err: ErrorState) returns (ret: int)
      requires -1 <= a.ret <= size
      requires data.Some? ==> size <= |data.value|
      modifies this, err
      ensures data.None? ==>
        ret == -1 && st == old(st).(calls := old(st.calls) + [Write([])]) &&
        err.errno == EFAULT && err.flinkErrno == old(err.flinkErrno)
      ensures data.Some? ==>
        ret == a.ret && st == WriteState(old(st), data.value[..size], a) &&
        err.errno == ErrnoAfter(old(err.errno), a) && err.flinkErrno == old(err.flinkErrno)
    {
      if data.None? {
        ret := -1;
        st := st.(calls := st.calls + [Write([])]);
        err.errno := EFAULT;
      } else {
        ret := a.ret;
        st := WriteState(st, data.value[..size], a);
        err.errno := ErrnoAfter(err.errno, a);
      }
    }
  }
}
