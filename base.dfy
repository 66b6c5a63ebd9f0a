/*
 * Device-level operations of lib/base.c: opening a device file and
 * discovering its subdevices, closing it, looking subdevices up, and the
 * subdevice reset.
 */
module Base {
  import opened FlinkLib
  import opened Errors
  import opened Registers
  import opened Types
  import opened Valid
  import opened Control
  import opened LowLevel

  // ---------------------------------------------------------------------
  // Discovery

  /**
   * The table size discovery allocates for: the driver's count, or, when
   * reading the count fails, -1 truncated to uint8_t, which is 255.
   */
  function DiscoveredCount(table: Table, count: Answer): (n: u8)
    ensures count.ret >= 0 ==> n == |table|
    ensures count.ret < 0 ==> n == U8(EXIT_ERROR) == 255
  {
    if count.ret >= 0 then |table| else U8(EXIT_ERROR)
  }

  /** The first of the ids from..n-1 whose descriptor query fails, or n when none does. */
  function FirstFailure(info: int -> Answer, from: nat, n: nat): (k: nat)
    requires from <= n
    ensures from <= k <= n
    ensures forall j :: from <= j < k ==> info(j).ret >= 0
    ensures k < n ==> info(k).ret < 0
    decreases n - from
  {
    if from == n then n
    else if info(from).ret < 0 then from
    else FirstFailure(info, from + 1, n)
  }

  /** The descriptor queries discovery issues for ids 0..k-1. */
  function InfoCalls(k: nat): (cs: seq<Call>)
    requires k <= 0x100
    ensures |cs| == k
    ensures forall i :: 0 <= i < k ==> cs[i] == Ioctl(ReadSubdeviceInfo(i, ZERO_DESCRIPTOR))
  {
    seq(k, i requires 0 <= i < k => Ioctl(ReadSubdeviceInfo(i, ZERO_DESCRIPTOR)))
  }

  /** The entry at index i after discovery stopped at index k (k == n when it completed). */
  function DiscoveredEntry(table: Table, dev: Device, i: u8, k: nat): Subdevice {
    if i < k then Entry(i, Describe(table, i), dev)
    else if i == k then ZERO_SUBDEVICE.(id := i)
    else ZERO_SUBDEVICE
  }

  /** Entries below i are discovered, the others still as calloc left them. */
  ghost predicate TableUpTo(table: seq<Subdevice>, dev: Device, i: nat) {
    && (forall j: u8 :: j < i && j < |table| ==> table[j] == Entry(j, Describe(dev.file.table, j), dev))
    && (forall j: u8 :: i <= j < |table| ==> table[j] == ZERO_SUBDEVICE)
  }

  /** The table after discovery stopped at index k (k == its length when it completed). */
  ghost predicate TableAfter(table: seq<Subdevice>, dev: Device, k: nat) {
    forall i: u8 :: i < |table| ==> table[i] == DiscoveredEntry(dev.file.table, dev, i, k)
  }

  /**
   * read_nof_subdevices: the number of subdevices the driver reports, or -1.
   */
  method ReadNofSubdevices(dev: Device?, a: Answer, err: ErrorState) returns (n: int)
    modifies FileOf(dev), err
    ensures n == if ValidateFlinkDev(dev) && a.ret >= 0 then |dev.file.table| else EXIT_ERROR
    ensures dev != null ==> dev.file.st == IoctlOn(dev, old(dev.file.st), Cmd.ReadNofSubdevices(0), a)
    ensures err.errno == if ValidateFlinkDev(dev) then ErrnoAfter(old(err.errno), a) else old(err.errno)
    ensures err.flinkErrno == if n == EXIT_ERROR then err.errno else old(err.flinkErrno)
  {
    var ret, reply := FlinkIoctl(dev, Cmd.ReadNofSubdevices(0), a, err);
    if ret < 0 {
      err.LibcError();
      return EXIT_ERROR;
    }
    return reply.nof;
  }

  /**
   * get_subdevices: size and allocate the subdevice table of dev (alloc says
   * whether calloc succeeds), then query the driver for each entry, stopping
   * at the first query that fails. Returns the number of entries read or a
   * negative value.
   */
  method GetSubdevices(dev: Device?, count: Answer, alloc: bool, info: int -> Answer, err: ErrorState)
    returns (r: int)
    modifies dev, FileOf(dev), err
    ensures !ValidateFlinkDev(dev) ==>
      r == EXIT_ERROR && err.flinkErrno == FLINK_EINVALDEV && err.errno == old(err.errno) &&
      (dev != null ==> dev.file.st == old(dev.file.st) && dev.nofSubdevices == old(dev.nofSubdevices) &&
                       dev.subdevices == old(dev.subdevices))
    ensures ValidateFlinkDev(dev) && !alloc ==>
      r == EXIT_ERROR && dev.nofSubdevices == 0 && dev.subdevices == null &&
      err.flinkErrno == err.errno == ENOMEM &&
      dev.file.st == IoctlState(old(dev.file.st), Cmd.ReadNofSubdevices(0), count)
    ensures ValidateFlinkDev(dev) && alloc ==>
      var n := DiscoveredCount(dev.file.table, count);
      var k := FirstFailure(info, 0, n);
      && dev.nofSubdevices == n
      && dev.subdevices != null && fresh(dev.subdevices) && dev.subdevices.Length == n
      && r == (if k == n then n else info(k).ret)
      && TableAfter(dev.subdevices[..], dev, k)
      && dev.file.st == old(dev.file.st).(calls := old(dev.file.st.calls) + [Ioctl(Cmd.ReadNofSubdevices(0))] +
                                                   InfoCalls(if k < n then k + 1 else n))
      && err.flinkErrno == (if k == n && count.ret >= 0 then old(err.flinkErrno) else err.errno)
      && err.errno == (if k < n then info(k).errno else ErrnoAfter(old(err.errno), count))
  {
    if !ValidateFlinkDev(dev) {
      err.FlinkError(FLINK_EINVALDEV);
      return EXIT_ERROR;
    }
    var nof := ReadNofSubdevices(dev, count, err);
    dev.nofSubdevices := U8(nof);
    if !alloc {
      err.errno := ENOMEM;
      err.LibcError();
      dev.nofSubdevices := 0;
      dev.subdevices := null;
      return EXIT_ERROR;
    }
    var table := new Subdevice[dev.nofSubdevices](_ => ZERO_SUBDEVICE);
    dev.subdevices := table;
    r := QueryDescriptors(dev, table, info, err);
  }

  /**
   * The loop of get_subdevices: query the driver for entry 0, 1, ... of a
   * freshly zeroed table and fill it in, until a query fails.
   */
  method QueryDescriptors(dev: Device, table: array<Subdevice>, info: int -> Answer, err: ErrorState)
    returns (r: int)
    requires ValidateFlinkDev(dev) && dev.subdevices == table && table.Length == dev.nofSubdevices
    requires forall j :: 0 <= j < table.Length ==> table[j] == ZERO_SUBDEVICE
    modifies table, dev.file, err
    ensures var n := table.Length;
      var k := FirstFailure(info, 0, n);
      && r == (if k == n then n else info(k).ret)
      && TableAfter(table[..], dev, k)
      && dev.file.st == old(dev.file.st).(calls := old(dev.file.st.calls) + InfoCalls(if k < n then k + 1 else n))
      && err.flinkErrno == (if k == n then old(err.flinkErrno) else err.errno)
      && err.errno == (if k < n then info(k).errno else old(err.errno))
  {
    ghost var n := table.Length;
    ghost var s0 := dev.file.st;
    var i := 0;
    while i < dev.nofSubdevices
      invariant 0 <= i <= n
      invariant forall j :: 0 <= j < i ==> info(j).ret >= 0
      invariant TableUpTo(table[..], dev, i)
      invariant dev.file.st == s0.(calls := s0.calls + InfoCalls(i))
      invariant err.flinkErrno == old(err.flinkErrno) && err.errno == old(err.errno)
      decreases n - i
    {
      var ret := QueryEntry(dev, table, i, info, err, s0);
      if ret < 0 {
        FirstFailureAt(info, n, i);
        return ret;
      }
      i := i + 1;
    }
    FirstFailureAt(info, n, n);
    TableComplete(table[..], dev);
    return i;
  }

  /**
   * One pass of the loop of get_subdevices: entry i gets its id, then the
   * driver is asked for descriptor i; when it answers, the entry is filled
   * in from the answer.
   */
  method QueryEntry(dev: Device, table: array<Subdevice>, i: u8, info: int -> Answer, err: ErrorState,
                    ghost s0: FileState) returns (ret: int)
    requires ValidateFlinkDev(dev) && i < table.Length
    requires TableUpTo(table[..], dev, i) && dev.file.st == s0.(calls := s0.calls + InfoCalls(i))
    modifies table, dev.file, err
    ensures ret == info(i).ret
    ensures dev.file.st == s0.(calls := s0.calls + InfoCalls(i + 1))
    ensures ret >= 0 ==>
      TableUpTo(table[..], dev, i + 1) && err.flinkErrno == old(err.flinkErrno) && err.errno == old(err.errno)
    ensures ret < 0 ==>
      TableAfter(table[..], dev, i) && err.flinkErrno == err.errno == info(i).errno
  {
    table[i] := table[i].(id := i);
    var reply;
    ret, reply := FlinkIoctl(dev, ReadSubdeviceInfo(i, ZERO_DESCRIPTOR), info(i), err);
    assert InfoCalls(i) + [Ioctl(ReadSubdeviceInfo(i, ZERO_DESCRIPTOR))] == InfoCalls(i + 1);
    if ret >= 0 {
      table[i] := Entry(i, reply.desc, dev);
    }
  }

  /** A table discovered up to its length is the table discovery completes. */
  lemma TableComplete(table: seq<Subdevice>, dev: Device)
    requires TableUpTo(table, dev, |table|)
    ensures TableAfter(table, dev, |table|)
  {
  }

  /** FirstFailure is the first failing index: any index with that property is it. */
  lemma FirstFailureAt(info: int -> Answer, n: nat, k: nat)
    requires k <= n
    requires forall j :: 0 <= j < k ==> info(j).ret >= 0
    requires k < n ==> info(k).ret < 0
    ensures FirstFailure(info, 0, n) == k
  {
  }

  /** A device whose table holds exactly the entries discovery read for it. */
  ghost predicate Discovered(dev: Device)
    reads dev, dev.subdevices
  {
    dev.subdevices != null && dev.subdevices.Length == dev.nofSubdevices &&
    TableAfter(dev.subdevices[..], dev, dev.nofSubdevices)
  }

  /** In a discovered table every entry sits at the index equal to its id and points back to the device. */
  lemma DiscoveredEntries(dev: Device, i: u8)
    requires Discovered(dev) && i < dev.nofSubdevices
    ensures dev.subdevices[i].id == i && dev.subdevices[i].parent == dev
    ensures dev.subdevices[i] == Entry(i, Describe(dev.file.table, i), dev)
  {
  }

  // ---------------------------------------------------------------------
  // Opening and closing

  /**
   * flink_open: allocate the handle (mallocOk says whether malloc
   * succeeds), open the device file and discover its subdevices. Any
   * failure returns null, and a descriptor openAnswer on the way is closed
   * again, so a failed open leaves no descriptor behind.
   */
  method FlinkOpen(file: DeviceFile, mallocOk: bool, openAnswer: Answer, count: Answer, alloc: bool,
                   info: int -> Answer, err: ErrorState) returns (dev: Device?)
    modifies file, err
    ensures var n := DiscoveredCount(file.table, count);
      dev != null <==> mallocOk && openAnswer.ret > 0 && alloc && FirstFailure(info, 0, n) == n
    ensures dev != null ==>
      fresh(dev) && dev.file == file && dev.fd == openAnswer.ret && ValidateFlinkDev(dev) &&
      dev.nofSubdevices == DiscoveredCount(file.table, count) && fresh(dev.subdevices) && Discovered(dev)
    ensures file.st.mem == old(file.st.mem)
    ensures file.st.opens == old(file.st.opens) + (if dev != null then 1 else 0)
    ensures dev == null && !mallocOk ==> err.flinkErrno == ENOMEM
    ensures dev == null && mallocOk && openAnswer.ret < 0 ==> err.flinkErrno == openAnswer.errno
    ensures dev == null && mallocOk && openAnswer.ret == 0 ==> err.flinkErrno == FLINK_EINVALDEV
    ensures dev == null && mallocOk && openAnswer.ret > 0 ==> err.flinkErrno == err.errno
  {
    if !mallocOk {
      err.errno := ENOMEM;
      err.LibcError();
      return null;
    }
    var fd := file.Open(openAnswer, err);
    if fd < 0 {
      err.LibcError();
      return null;
    }
    dev := new Device(file, fd);
    var r := GetSubdevices(dev, count, alloc, info, err);
    if r < 0 {
      file.Close();
      return null;
    }
  }

  /** flink_close: close the descriptor of a valid device. */
  method FlinkClose(dev: Device?, err: ErrorState) returns (r: int)
    modifies FileOf(dev), err
    ensures r == EXIT_SUCCESS <==> ValidateFlinkDev(dev)
    ensures r == EXIT_ERROR ==>
      err.flinkErrno == FLINK_EINVALDEV && err.errno == old(err.errno) &&
      (dev != null ==> dev.file.st == old(dev.file.st))
    ensures r == EXIT_SUCCESS ==>
      err.flinkErrno == old(err.flinkErrno) && err.errno == old(err.errno) &&
      dev.file.st == old(dev.file.st).(opens := if old(dev.file.st.opens) > 0 then old(dev.file.st.opens) - 1 else 0,
                                       calls := old(dev.file.st.calls) + [Call.Close])
  {
    if !ValidateFlinkDev(dev) {
      err.FlinkError(FLINK_EINVALDEV);
      return EXIT_ERROR;
    }
    dev.file.Close();
    return EXIT_SUCCESS;
  }

  /** flink_get_nof_subdevices: the table size of a valid device, or -1. */
  method GetNofSubdevices(dev: Device?, err: ErrorState) returns (r: int)
    modifies err
    ensures r == if ValidateFlinkDev(dev) then dev.nofSubdevices else EXIT_ERROR
    ensures err.errno == old(err.errno)
    ensures err.flinkErrno == if ValidateFlinkDev(dev) then old(err.flinkErrno) else FLINK_EINVALDEV
  {
    if !ValidateFlinkDev(dev) {
      err.FlinkError(FLINK_EINVALDEV);
      return EXIT_ERROR;
    }
    return dev.nofSubdevices;
  }

  /**
   * flink_subdevice_reset: set the reset bit of the configuration register
   * of sub.
   */
  method SubdeviceReset(sub: Subdevice, io: BitIo, err: ErrorState) returns (r: int)
    modifies FileOf(sub.parent), err
    ensures !ValidateFlinkSubdev(sub) ==>
      r == EXIT_ERROR && err.flinkErrno == FLINK_EINVALSUBDEV && err.errno == old(err.errno)
    ensures ValidateFlinkSubdev(sub) ==> BitWritten(sub, CONFIG_OFFSET, RESET_BIT, 1, io, err, r)
    ensures sub.parent != null && !ValidateFlinkSubdev(sub) ==> sub.parent.file.st == old(sub.parent.file.st)
  {
    if !ValidateFlinkSubdev(sub) {
      err.FlinkError(FLINK_EINVALSUBDEV);
      return EXIT_ERROR;
    }
    var w := FlinkWriteBit(sub, CONFIG_OFFSET, RESET_BIT, 1, io, err);
    if w != 0 {
      err.LibcError();
      return EXIT_ERROR;
    }
    return EXIT_SUCCESS;
  }

  // ---------------------------------------------------------------------
  // Lookup

  /** The id check of flink_get_subdevice_by_id as written: it rejects only ids above the count. */
  function ByIdAccepts(nof: u8, id: u8): bool {
    !(id > nof)
  }

  /** The id check with the comparison corrected: exactly the ids of table entries. */
  function ByIdAcceptsFixed(nof: u8, id: u8): bool {
    !(id >= nof)
  }

  /** As written, the id equal to the table size passes the check although no entry has it. */
  lemma ByIdAcceptsPastEnd(nof: u8)
    ensures ByIdAccepts(nof, nof) && !ByIdAcceptsFixed(nof, nof)
    ensures forall id: u8 :: ByIdAccepts(nof, id) <==> ByIdAcceptsFixed(nof, id) || id == nof
  {
  }

  /**
   * flink_get_subdevice_by_id as written: the index id of the table, or
   * None with an error.
   */
  method GetSubdeviceById(dev: Device?, id: u8, err: ErrorState) returns (p: Option<u8>)
    modifies err
    ensures p.Some? <==> ValidateFlinkDev(dev) && ByIdAccepts(dev.nofSubdevices, id)
    ensures p.Some? ==> p.value == id && err.flinkErrno == old(err.flinkErrno)
    ensures !ValidateFlinkDev(dev) ==> err.flinkErrno == FLINK_EINVALDEV
    ensures ValidateFlinkDev(dev) && !ByIdAccepts(dev.nofSubdevices, id) ==> err.flinkErrno == FLINK_EINVALSUBDEV
    ensures err.errno == old(err.errno)
  {
    if !ValidateFlinkDev(dev) {
      err.FlinkError(FLINK_EINVALDEV);
      return None;
    }
    if !ByIdAccepts(dev.nofSubdevices, id) {
      err.FlinkError(FLINK_EINVALSUBDEV);
      return None;
    }
    return Some(id);
  }

  /**
   * flink_get_subdevice_by_id with the check corrected: on a discovered
   * device it finds exactly the entry whose id is id.
   */
  method GetSubdeviceByIdFixed(dev: Device?, id: u8, err: ErrorState) returns (p: Option<u8>)
    modifies err
    ensures p.Some? <==> ValidateFlinkDev(dev) && id < dev.nofSubdevices
    ensures p.Some? && Discovered(dev) ==> p.value < dev.subdevices.Length && dev.subdevices[p.value].id == id
    ensures p.Some? ==> err.flinkErrno == old(err.flinkErrno)
    ensures !ValidateFlinkDev(dev) ==> err.flinkErrno == FLINK_EINVALDEV
    ensures ValidateFlinkDev(dev) && p.None? ==> err.flinkErrno == FLINK_EINVALSUBDEV
    ensures err.errno == old(err.errno)
  {
    if !ValidateFlinkDev(dev) {
      err.FlinkError(FLINK_EINVALDEV);
      return None;
    }
    if !ByIdAcceptsFixed(dev.nofSubdevices, id) {
      err.FlinkError(FLINK_EINVALSUBDEV);
      return None;
    }
    if Discovered(dev) {
      DiscoveredEntries(dev, id);
    }
    return Some(id);
  }

  /**
   * flink_get_subdevice_by_unique_id: the first entry of the table with the
   * unique id, or None. Not finding one records no error. The table pointer
   * is read before the device is checked, so dev must not be null.
   */
  method GetSubdeviceByUniqueId(dev: Device, uniqueId: u32, err: ErrorState) returns (p: Option<u8>)
    requires ValidateFlinkDev(dev) ==> dev.subdevices != null && dev.nofSubdevices <= dev.subdevices.Length
    modifies err
    ensures !ValidateFlinkDev(dev) ==> p.None? && err.flinkErrno == FLINK_EINVALDEV
    ensures ValidateFlinkDev(dev) ==> err.flinkErrno == old(err.flinkErrno)
    ensures err.errno == old(err.errno)
    ensures p.Some? ==>
      p.value < dev.nofSubdevices && dev.subdevices[p.value].uniqueId == uniqueId &&
      forall j :: 0 <= j < p.value ==> dev.subdevices[j].uniqueId != uniqueId
    ensures p.None? && ValidateFlinkDev(dev) ==>
      forall j :: 0 <= j < dev.nofSubdevices ==> dev.subdevices[j].uniqueId != uniqueId
  {
    var table := dev.subdevices;
    if !ValidateFlinkDev(dev) {
      err.FlinkError(FLINK_EINVALDEV);
      return None;
    }
    var nof := 0;
    while nof < dev.nofSubdevices
      invariant 0 <= nof <= dev.nofSubdevices
      invariant forall j :: 0 <= j < nof ==> table[j].uniqueId != uniqueId
    {
      if table[nof].uniqueId == uniqueId {
        return Some(nof);
      }
      nof := nof + 1;
    }
    return None;
  }

  // ---------------------------------------------------------------------
  // Field getters

  // Each getter reports, for the entry discovery made of descriptor d, the
  // corresponding field of d.

  function GetId(sub: Subdevice): (id: u8)
    ensures forall i: u8, d: Descriptor :: sub == Entry(i, d, sub.parent) ==> id == i
  {
    sub.id
  }

  function GetFunction(sub: Subdevice): (f: u16)
    ensures forall d: Descriptor :: sub == Entry(sub.id, d, sub.parent) ==> f == d.functionId
  {
    sub.functionId
  }

  function GetSubfunction(sub: Subdevice): (f: u8)
    ensures forall d: Descriptor :: sub == Entry(sub.id, d, sub.parent) ==> f == d.subFunctionId
  {
    sub.subFunctionId
  }

  function GetFunctionVersion(sub: Subdevice): (v: u8)
    ensures forall d: Descriptor :: sub == Entry(sub.id, d, sub.parent) ==> v == d.functionVersion
  {
    sub.functionVersion
  }

  function GetBaseAddr(sub: Subdevice): (a: u32)
    ensures forall d: Descriptor :: sub == Entry(sub.id, d, sub.parent) ==> a == d.baseAddr
  {
    sub.baseAddr
  }

  function GetMemSize(sub: Subdevice): (size: u32)
    ensures forall d: Descriptor :: sub == Entry(sub.id, d, sub.parent) ==> size == d.memSize
  {
    sub.memSize
  }

  function GetNofChannels(sub: Subdevice): (n: u32)
    ensures forall d: Descriptor :: sub == Entry(sub.id, d, sub.parent) ==> n == d.nofChannels
  {
    sub.nofChannels
  }

  function GetUniqueId(sub: Subdevice): (u: u32)
    ensures forall d: Descriptor :: sub == Entry(sub.id, d, sub.parent) ==> u == d.uniqueId
  {
    sub.uniqueId
  }

  /** On a discovered device the getters report, for entry i, what the driver described for subdevice i. */
  lemma GettersReportDescriptor(dev: Device, i: u8)
    requires Discovered(dev) && i < dev.nofSubdevices
    ensures var s := dev.subdevices[i];
      var d := Describe(dev.file.table, i);
      && GetId(s) == i && GetFunction(s) == d.functionId && GetSubfunction(s) == d.subFunctionId
      && GetFunctionVersion(s) == d.functionVersion && GetBaseAddr(s) == d.baseAddr
      && GetMemSize(s) == d.memSize && GetNofChannels(s) == d.nofChannels && GetUniqueId(s) == d.uniqueId
  {
    DiscoveredEntries(dev, i);
  }
}
