/*
 * Error handling of the fLink library (lib/error.h, lib/error.c): the
 * library's own error codes, the message table, and the two ways an error is
 * recorded in the thread-local flink_errno.
 */
module Errors {
  import opened FlinkLib

  const FLINK_NOERROR := 0x2000
  const FLINK_EUNKNOWN := FLINK_NOERROR + 1
  const FLINK_ENOTSUPPORTED := FLINK_NOERROR + 2
  const FLINK_EINVALDEV := FLINK_NOERROR + 3
  const FLINK_EINVALSUBDEV := FLINK_NOERROR + 4
  const FLINK_EINVALCHAN := FLINK_NOERROR + 5
  const FLINK_ENULLPTR := FLINK_NOERROR + 6
  const FLINK_UNKNOWNIOCTL := FLINK_NOERROR + 7
  const FLINK_WRONGSUBDEVT := FLINK_NOERROR + 8

  // Platform errno values (Linux) for the failures the model produces itself.
  /** Out of memory. */
  const ENOMEM := 12
  /** Bad user-space address. */
  const EFAULT := 14

  /** The meaning that lib/error.h gives each library code, as its comment says. */
  function CodeMeaning(e: int): (s: Option<string>)
    ensures s.Some? <==> FLINK_NOERROR <= e <= FLINK_WRONGSUBDEVT
  {
    if e == FLINK_NOERROR then Some("No error")
    else if e == FLINK_EUNKNOWN then Some("Unknown error")
    else if e == FLINK_ENOTSUPPORTED then Some("Not supported")
    else if e == FLINK_EINVALDEV then Some("Invalid device")
    else if e == FLINK_EINVALSUBDEV then Some("Invalid subdevice")
    else if e == FLINK_EINVALCHAN then Some("Invalid channel")
    else if e == FLINK_ENULLPTR then Some("Null ptr as argument")
    else if e == FLINK_UNKNOWNIOCTL then Some("Unknown ioctl command")
    else if e == FLINK_WRONGSUBDEVT then Some("Wrong subdevice type")
    else None
  }

  /**
   * The message table as written: no comma follows "Not supported", so the
   * compiler joins it with the next literal and the table has 8 entries.
   */
  const ERROR_STRINGS: seq<string> := [
    "No error",
    "Unknown error",
    "Not supported" + "Invalid device",
    "Invalid subdevice",
    "Invalid channel",
    "Null ptr as argument",
    "Unknown ioctl command",
    "Wrong subdevice type"
  ]

  /** The table with the missing comma restored: one entry per code. */
  const ERROR_STRINGS_FIXED: seq<string> := [
    "No error",
    "Unknown error",
    "Not supported",
    "Invalid device",
    "Invalid subdevice",
    "Invalid channel",
    "Null ptr as argument",
    "Unknown ioctl command",
    "Wrong subdevice type"
  ]

  /**
   * flink_strerror over a message table: codes inside the table's range get
   * their entry, every other code is handed to the platform's strerror.
   */
  function StrErrorOver(table: seq<string>, e: int, platform: int -> string): (s: string)
    ensures FLINK_NOERROR <= e < FLINK_NOERROR + |table| ==> s == table[e - FLINK_NOERROR]
    ensures !(FLINK_NOERROR <= e < FLINK_NOERROR + |table|) ==> s == platform(e)
  {
    if e < FLINK_NOERROR || e >= FLINK_NOERROR + |table| then platform(e)
    else table[e - FLINK_NOERROR]
  }

  /**
   * flink_strerror as written: the codes FLINK_NOERROR..FLINK_UNKNOWNIOCTL
   * get a message of the table, every other code, FLINK_WRONGSUBDEVT
   * included, goes to strerror.
   */
  function StrError(e: int, platform: int -> string): (s: string)
    ensures FLINK_NOERROR <= e < FLINK_WRONGSUBDEVT ==> s in ERROR_STRINGS
    ensures !(FLINK_NOERROR <= e < FLINK_WRONGSUBDEVT) ==> s == platform(e)
  {
    StrErrorOver(ERROR_STRINGS, e, platform)
  }

  /**
   * flink_strerror with the table corrected: every library code gets a
   * message of the table, every other code goes to strerror.
   */
  function StrErrorFixed(e: int, platform: int -> string): (s: string)
    ensures CodeMeaning(e).Some? ==> s in ERROR_STRINGS_FIXED
    ensures CodeMeaning(e).None? ==> s == platform(e)
  {
    StrErrorOver(ERROR_STRINGS_FIXED, e, platform)
  }

  /**
   * As written, the codes from FLINK_EINVALDEV on get the message of the next
   * code, FLINK_ENOTSUPPORTED gets two messages glued together, and
   * FLINK_WRONGSUBDEVT falls outside the table and reaches strerror.
   */
  lemma StrErrorShifted(platform: int -> string)
    ensures |ERROR_STRINGS| == 8
    ensures StrError(FLINK_ENOTSUPPORTED, platform) == "Not supportedInvalid device"
    ensures forall e :: FLINK_EINVALDEV <= e < FLINK_WRONGSUBDEVT ==>
      Some(StrError(e, platform)) == CodeMeaning(e + 1)
    ensures StrError(FLINK_WRONGSUBDEVT, platform) == platform(FLINK_WRONGSUBDEVT)
    ensures Some(StrError(FLINK_EINVALDEV, platform)) != CodeMeaning(FLINK_EINVALDEV)
  {
    assert StrError(FLINK_EINVALDEV, platform) == "Invalid subdevice";
  }

  /** With the comma restored every library code gets its own meaning. */
  lemma StrErrorFixedMatchesCodes(e: int, platform: int -> string)
    ensures CodeMeaning(e).Some? ==> StrErrorFixed(e, platform) == CodeMeaning(e).value
    ensures CodeMeaning(e).None? ==> StrErrorFixed(e, platform) == platform(e)
  {
  }

  /** The line flink_perror writes: a missing prefix becomes "flinklib". */
  function PerrorLine(p: Option<string>, errno: int, platform: int -> string): (line: string)
    ensures p.Some? ==> line == p.value + ": " + StrError(errno, platform) + "\n"
    ensures p.None? ==> line == "flinklib: " + StrError(errno, platform) + "\n"
  {
    var prefix := if p.None? then "flinklib" else p.value;
    prefix + ": " + StrError(errno, platform) + "\n"
  }

  /**
   * The thread-local flink_errno of the library together with the platform's
   * errno, which failing system calls set.
   */
  class ErrorState {
    var flinkErrno: int
    var errno: int

    /** A new thread: flink_errno starts out 0. */
    constructor (errno: int)
      ensures flinkErrno == 0 && this.errno == errno
    {
      flinkErrno := 0;
      this.errno := errno;
    }

    /** flink_error: record a library error code. */
    method FlinkError(e: int)
      modifies this
      ensures flinkErrno == e && errno == old(errno)
    {
      flinkErrno := e;
    }

    /** libc_error: copy the platform's errno into flink_errno. */
    method LibcError()
      modifies this
      ensures flinkErrno == old(errno) && errno == old(errno)
    {
      flinkErrno := errno;
    }
  }
}
