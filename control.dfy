/*
 * The ioctl path of the library: flink_ioctl (lib/lowlevel.c) and
 * flink_subdevice_select (lib/base.c). They sit in one module because the
 * two source files call each other.
 */
module Control {
  import opened FlinkLib
  import opened Errors
  import opened Registers
  import opened Types
  import opened Valid

  /** The device file state after flink_ioctl: an invalid device issues no call. */
  function IoctlOn(dev: Device?, s: FileState, cmd: Cmd, a: Answer): FileState
  {
    if ValidateFlinkDev(dev) then IoctlState(s, cmd, a) else s
  }

  /**
   * flink_ioctl: check the device, pass the command to the driver and turn a
   * failing call into a library error.
   */
  method FlinkIoctl(dev: Device?, cmd: Cmd, a: Answer, err: ErrorState) returns (ret: int, out: Cmd)
    modifies FileOf(dev), err
    ensures dev != null ==> dev.file.st == IoctlOn(dev, old(dev.file.st), cmd, a)
    ensures !ValidateFlinkDev(dev) ==>
      ret == EXIT_ERROR && out == cmd && err.flinkErrno == FLINK_EINVALDEV && err.errno == old(err.errno)
    ensures ValidateFlinkDev(dev) ==>
      ret == a.ret && err.errno == ErrnoAfter(old(err.errno), a) &&
      out == (if a.ret >= 0 then IoctlReply(dev.file.table, old(dev.file.st), cmd) else cmd) &&
      err.flinkErrno == (if a.ret < 0 then a.errno else old(err.flinkErrno))
  {
    if !ValidateFlinkDev(dev) {
      err.FlinkError(FLINK_EINVALDEV);
      return EXIT_ERROR, cmd;
    }
    ret, out := dev.file.DoIoctl(cmd, a, err);
    if ret < 0 {
      err.LibcError();
    }
  }

  /** The select command: exclusive for any nonzero flag. */
  function SelectCmd(id: u8, exclusive: u8): (c: Cmd)
    ensures c.SelectSubdevice? <==> exclusive == 0
    ensures c.SelectSubdevice? || c.SelectSubdeviceExcl?
    ensures c.id == id
  {
    if exclusive != 0 then SelectSubdeviceExcl(id) else SelectSubdevice(id)
  }

  /** A selection succeeds when the parent device is valid and the driver accepts it. */
  predicate Selects(sub: Subdevice, a: Answer)
  {
    ValidateFlinkDev(sub.parent) && a.ret >= 0
  }

  /** The device file state after flink_subdevice_select. */
  function SelectOn(s: FileState, sub: Subdevice, exclusive: u8, a: Answer): FileState
  {
    IoctlOn(sub.parent, s, SelectCmd(sub.id, exclusive), a)
  }

  /**
   * A successful selection makes the kernel address sub, exclusively exactly
   * when asked to, and changes no register; a failed one changes nothing
   * but the log.
   */
  lemma SelectOnEffect(s: FileState, sub: Subdevice, exclusive: u8, a: Answer)
    ensures SelectOn(s, sub, exclusive, a).mem == s.mem
    ensures SelectOn(s, sub, exclusive, a).pos == s.pos
    ensures Selects(sub, a) ==>
      SelectOn(s, sub, exclusive, a).selected == sub.id &&
      SelectOn(s, sub, exclusive, a).exclusive == (exclusive != 0)
    ensures !Selects(sub, a) ==>
      SelectOn(s, sub, exclusive, a).selected == s.selected &&
      SelectOn(s, sub, exclusive, a).exclusive == s.exclusive
  {
  }

  /**
   * flink_subdevice_select: ask the driver to address sub. Any failure,
   * including an invalid parent, ends in libc_error.
   */
  method SubdeviceSelect(sub: Subdevice, exclusive: u8, a: Answer, err: ErrorState) returns (r: int)
    modifies FileOf(sub.parent), err
    ensures r == EXIT_SUCCESS || r == EXIT_ERROR
    ensures r == EXIT_SUCCESS <==> Selects(sub, a)
    ensures sub.parent != null ==> sub.parent.file.st == SelectOn(old(sub.parent.file.st), sub, exclusive, a)
    ensures err.errno == (if ValidateFlinkDev(sub.parent) then ErrnoAfter(old(err.errno), a) else old(err.errno))
    ensures r == EXIT_SUCCESS ==> err.flinkErrno == old(err.flinkErrno)
    ensures r == EXIT_ERROR ==> err.flinkErrno == err.errno
  {
    var cmd := SelectCmd(sub.id, exclusive);
    var ret, _ := FlinkIoctl(sub.parent, cmd, a, err);
    if ret < 0 {
      err.LibcError();
      return EXIT_ERROR;
    }
    return EXIT_SUCCESS;
  }
}
