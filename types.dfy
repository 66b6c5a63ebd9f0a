/*
 * The library's handles (lib/types.h): a device is an open device file with
 * its table of subdevices; a subdevice is the descriptor the driver reported,
 * its position in the table and a pointer back to its device.
 */
module Types {
  import opened FlinkLib
  import opened Registers

  /**
   * One entry of the subdevice table. The unique id is a field because
   * lib/base.c reads and returns it.
   */
  datatype Subdevice = Subdevice(
    id: u8,
    functionId: u16,
    subFunctionId: u8,
    functionVersion: u8,
    baseAddr: u32,
    memSize: u32,
    nofChannels: u32,
    uniqueId: u32,
    parent: Device?)

  /** A table entry as calloc leaves it: all fields zero, no parent. */
  const ZERO_SUBDEVICE := Subdevice(0, 0, 0, 0, 0, 0, 0, 0, null)

  /** The entry discovery makes of descriptor d reported for subdevice id. */
  function Entry(id: u8, d: Descriptor, parent: Device?): (s: Subdevice)
    ensures s.id == id && s.parent == parent && s.uniqueId == d.uniqueId && s.nofChannels == d.nofChannels
  {
    Subdevice(id, d.functionId, d.subFunctionId, d.functionVersion, d.baseAddr,
              d.memSize, d.nofChannels, d.uniqueId, parent)
  }

  /** An open device: descriptor, table size, table, and the file behind the descriptor. */
  class Device {
    const fd: int
    var nofSubdevices: u8
    var subdevices: array?<Subdevice>
    const file: DeviceFile

    /** The freshly allocated handle, before discovery has filled it. */
    constructor (file: DeviceFile, fd: int)
      ensures this.file == file && this.fd == fd && nofSubdevices == 0 && subdevices == null
    {
      this.file := file;
      this.fd := fd;
      nofSubdevices := 0;
      subdevices := null;
    }
  }

  /** The device file a (possibly null) device handle talks to. */
  function FileOf(d: Device?): set<object> {
    if d == null then {} else {d.file}
  }

  /** The register contents behind a (possibly null) device handle. */
  function MemOf(d: Device?): Mem
    reads FileOf(d)
  {
    if d == null then EMPTY_MEM else d.file.st.mem
  }
}
