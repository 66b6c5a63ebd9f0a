/*
 * Info subdevices (lib/info.c): the description string is stored in the
 * registers that follow the first one, four characters per register, the
 * first character in the most significant byte.
 */
module Info {
  import opened FlinkLib
  import opened Errors
  import opened Registers
  import opened Types
  import opened LowLevel

  /** Number of registers the description spans: INFO_DESC_SIZE rounded up to whole registers. */
  const NOF_WORDS: nat := (INFO_DESC_SIZE + 3) / 4

  /**
   * Offset of the w-th description register. Since INFO_DESC_SIZE fits a
   * C int, the offsets of all description registers fit 32 bits.
   */
  function InfoOffset(w: nat): u32
    requires w <= NOF_WORDS
  {
    HEADER_SIZE + SUBHEADER_SIZE + REGISTER_WITH + 4 * w
  }

  /** Description register w sits after the 16-byte header, the 16-byte subheader and the first register. */
  lemma InfoOffsetValue(w: nat)
    requires w <= NOF_WORDS
    ensures InfoOffset(w) == 36 + 4 * w
  {
  }

  /** The 32-bit offset update of the loop never wraps: it reaches the next description register. */
  lemma InfoOffsetNext(w: nat)
    requires w < NOF_WORDS
    ensures U32(InfoOffset(w) as int + 4) == InfoOffset(w + 1)
  {
  }

  /** The byte loop runs while 4w < INFO_DESC_SIZE, that is for the registers below NOF_WORDS. */
  lemma WordsBound(w: nat)
    ensures 4 * w < INFO_DESC_SIZE <==> w < NOF_WORDS
  {
  }

  // ---------------------------------------------------------------------
  // Characters of a register

  /** Byte k (0 = least significant) of a register value: the value shifted right by 8k bits, truncated to 8. */
  function ByteOf(w: bv32, k: nat): bv8
    requires k < 4
  {
    if k == 0 then (w & 0xFF) as bv8
    else if k == 1 then ((w >> 8) & 0xFF) as bv8
    else if k == 2 then ((w >> 16) & 0xFF) as bv8
    else ((w >> 24) & 0xFF) as bv8
  }

  /** The four characters a register holds, most significant byte first. */
  function MsbFirst(w: bv32): (cs: seq<bv8>)
    ensures |cs| == 4
  {
    [ByteOf(w, 3), ByteOf(w, 2), ByteOf(w, 1), ByteOf(w, 0)]
  }

  /** Four bytes in reverse order. */
  function Reversed4(bs: seq<bv8>): (rs: seq<bv8>)
    requires |bs| == 4
    ensures |rs| == 4
  {
    [bs[3], bs[2], bs[1], bs[0]]
  }

  /** On a little-endian host the characters of a register are its bytes in reverse order. */
  lemma MsbFirstReversed(bs: seq<bv8>)
    requires |bs| == 4
    ensures MsbFirst(WordOf(bs)) == Reversed4(bs)
  {
    WordOfRoundTrip(bs);
  }

  /** The register value is recovered from its characters (big-endian reassembly). */
  lemma MsbFirstRoundTrip(w: bv32)
    ensures WordOf(Reversed4(MsbFirst(w))) == w
  {
    WordBytesRoundTrip(w);
    assert Reversed4(MsbFirst(w)) == WordBytes(w);
  }

  // ---------------------------------------------------------------------
  // The description

  /** The first n registers of the description, each register's bytes in reverse order. */
  function Description(m: Mem, id: int, n: nat): (d: seq<bv8>)
    requires n <= NOF_WORDS
    ensures |d| == 4 * n
  {
    if n == 0 then [] else Description(m, id, n - 1) + Reversed4(Bytes(m, id, InfoOffset(n - 1), 4))
  }

  /** Character j of the description is byte 3 - j % 4 of description register j / 4. */
  lemma {:induction false} DescriptionBytes(m: Mem, id: int, n: nat, j: nat)
    requires j < 4 * n && n <= NOF_WORDS
    ensures Description(m, id, n)[j] == ByteAt(m, Addr(id, InfoOffset(j / 4) + 3 - j % 4))
  {
    if j < 4 * (n - 1) {
      DescriptionBytes(m, id, n - 1, j);
    } else {
      assert j / 4 == n - 1;
    }
  }

  /** A read of the register at offset returns the whole register. */
  predicate WordOkAt(sub: Subdevice, offset: u32, io: Io)
  {
    Reaches(sub, offset, io) && io.xfer.ret == 4
  }

  /** The read of description register w returns the whole register. */
  predicate WordOk(sub: Subdevice, io: seq<Io>, w: nat)
    requires w < NOF_WORDS == |io|
  {
    WordOkAt(sub, InfoOffset(w), io[w])
  }

  /** The first description register, from `from` on, whose read fails (NOF_WORDS if none). */
  function FirstShortRead(sub: Subdevice, io: seq<Io>, from: nat): (k: nat)
    requires from <= NOF_WORDS == |io|
    ensures from <= k <= NOF_WORDS
    decreases NOF_WORDS - from
  {
    if from == NOF_WORDS || !WordOk(sub, io, from) then from else FirstShortRead(sub, io, from + 1)
  }

  /** Every read before the first short one succeeds, and that one fails. */
  lemma {:induction false} FirstShortReadSpec(sub: Subdevice, io: seq<Io>, from: nat)
    requires from <= NOF_WORDS == |io|
    ensures forall j :: from <= j < FirstShortRead(sub, io, from) ==> WordOk(sub, io, j)
    ensures FirstShortRead(sub, io, from) < NOF_WORDS ==> !WordOk(sub, io, FirstShortRead(sub, io, from))
    decreases NOF_WORDS - from
  {
    if from < NOF_WORDS && WordOk(sub, io, from) {
      FirstShortReadSpec(sub, io, from + 1);
    }
  }

  /** The device file state after the reads of the first n description registers. */
  function InfoFileState(s: FileState, sub: Subdevice, io: seq<Io>, n: nat): FileState
    requires n <= NOF_WORDS == |io|
  {
    if n == 0 then s
    else ReadFileState(InfoFileState(s, sub, io, n - 1), sub, InfoOffset(n - 1), 4, true, io[n - 1])
  }

  /** errno after the reads of the first n description registers. */
  function InfoErrno(e: int, sub: Subdevice, io: seq<Io>, n: nat): int
    requires n <= NOF_WORDS == |io|
  {
    if n == 0 then e
    else TransferErrno(InfoErrno(e, sub, io, n - 1), sub, InfoOffset(n - 1), true, io[n - 1])
  }

  /** One more register read. */
  lemma InfoStep(s: FileState, e: int, sub: Subdevice, io: seq<Io>, w: nat)
    requires w < NOF_WORDS == |io|
    ensures InfoFileState(s, sub, io, w + 1) == ReadFileState(InfoFileState(s, sub, io, w), sub, InfoOffset(w), 4, true, io[w])
    ensures InfoErrno(e, sub, io, w + 1) == TransferErrno(InfoErrno(e, sub, io, w), sub, InfoOffset(w), true, io[w])
  {
  }

  /** Reading the description never changes a register. */
  lemma {:induction false} InfoFileStateMem(s: FileState, sub: Subdevice, io: seq<Io>, n: nat)
    requires n <= NOF_WORDS == |io|
    ensures InfoFileState(s, sub, io, n).mem == s.mem
  {
    if n > 0 {
      InfoFileStateMem(s, sub, io, n - 1);
      ReadFileStateEffect(InfoFileState(s, sub, io, n - 1), sub, InfoOffset(n - 1), 4, true, io[n - 1]);
    }
  }

  // ---------------------------------------------------------------------
  // flink_info_get_description

  /** Registers before the first short read: the reads are issued up to and including the first failure. */
  function Issued(k: nat): (n: nat)
    requires k <= NOF_WORDS
    ensures n <= NOF_WORDS
  {
    if k < NOF_WORDS then k + 1 else NOF_WORDS
  }

  /**
   * The inner loop of flink_info_get_description: the bytes of word go to
   * desc[i..i+4], most significant first; nothing else in desc changes.
   */
  method StoreMsbFirst(desc: array<bv8>, i: nat, word: bv32)
    requires i + 4 <= desc.Length
    modifies desc
    ensures desc[..] == old(desc[..i]) + MsbFirst(word) + old(desc[i + 4..])
  {
    var k := REGISTER_WITH - 1;
    while k >= 0
      invariant -1 <= k <= 3
      invariant forall j :: 0 <= j < desc.Length && !(i <= j < i + 3 - k) ==> desc[j] == old(desc[j])
      invariant forall j :: 0 <= j < 3 - k ==> desc[i + j] == MsbFirst(word)[j]
    {
      desc[i + 3 - k] := ByteOf(word, k);
      k := k - 1;
    }
    assert desc[..] == old(desc[..i]) + MsbFirst(word) + old(desc[i + 4..]);
  }

  /**
   * One pass of the outer loop of flink_info_get_description: read
   * description register w into data and, when the whole register
   * arrived, append its characters to the description in desc. s0 and e0
   * are the device file state and errno before the first pass, m the
   * register contents and d0 the buffer before the first pass.
   */
  method ReadDescriptionWord(sub: Subdevice, w: nat, offset: u32, desc: array<bv8>, data: array<bv8>,
                             io: seq<Io>, err: ErrorState,
                             ghost s0: FileState, ghost e0: int, ghost m: Mem, ghost d0: seq<bv8>)
    returns (ok: bool)
    requires w < NOF_WORDS == |io| && offset == InfoOffset(w) && 4 * NOF_WORDS <= desc.Length == |d0|
    requires data.Length == 4 && data != desc
    requires -1 <= io[w].xfer.ret <= 4
    requires sub.parent != null ==> sub.parent.file.st == InfoFileState(s0, sub, io, w) && s0.mem == m
    requires err.errno == InfoErrno(e0, sub, io, w)
    requires desc[..4 * w] == Description(m, sub.id, w) && desc[4 * w..] == d0[4 * w..]
    modifies desc, data, FileOf(sub.parent), err
    ensures ok <==> WordOk(sub, io, w)
    ensures ok ==> FirstShortRead(sub, io, w) == FirstShortRead(sub, io, w + 1)
    ensures !ok ==> FirstShortRead(sub, io, w) == w
    ensures sub.parent != null ==> sub.parent.file.st == InfoFileState(s0, sub, io, w + 1)
    ensures err.errno == InfoErrno(e0, sub, io, w + 1)
    ensures ok ==> err.flinkErrno == old(err.flinkErrno)
    ensures ok ==> desc[..4 * (w + 1)] == Description(m, sub.id, w + 1) && desc[4 * (w + 1)..] == d0[4 * (w + 1)..]
    ensures !ok ==> desc[..] == old(desc[..])
  {
    InfoStep(s0, e0, sub, io, w);
    if sub.parent != null {
      InfoFileStateMem(s0, sub, io, w);
    }
    var n := FlinkRead(sub, offset, 4, data, io[w], err);
    if n != REGISTER_WITH {
      return false;
    }
    assert data[..] == Bytes(m, sub.id, offset, 4);
    var word := WordOf(data[..]);
    MsbFirstReversed(data[..]);
    ghost var d := desc[..];
    StoreMsbFirst(desc, 4 * w, word);
    assert d[..4 * w] == Description(m, sub.id, w) && d[4 * w + 4..] == d0[4 * (w + 1)..];
    return true;
  }

  /**
   * flink_info_get_description: read the description registers one by one
   * and store their characters in desc; the first read that does not
   * return a whole register ends the call with -1 and the platform error.
   * The buffer then holds the description up to that register and is
   * untouched beyond it.
   */
  method GetDescription(sub: Subdevice, desc: array<bv8>, io: seq<Io>, err: ErrorState) returns (r: int)
    requires 4 * NOF_WORDS <= desc.Length
    requires |io| == NOF_WORDS
    requires forall w :: 0 <= w < |io| ==> -1 <= io[w].xfer.ret <= 4
    modifies desc, FileOf(sub.parent), err
    ensures var k := FirstShortRead(sub, io, 0);
      && (r == EXIT_SUCCESS || r == EXIT_ERROR)
      && (r == EXIT_SUCCESS <==> k == NOF_WORDS)
      && desc[..4 * k] == Description(old(MemOf(sub.parent)), sub.id, k) && desc[4 * k..] == old(desc[4 * k..])
      && (sub.parent != null ==> sub.parent.file.st == InfoFileState(old(sub.parent.file.st), sub, io, Issued(k)))
      && err.errno == InfoErrno(old(err.errno), sub, io, Issued(k))
    ensures err.flinkErrno == if r == EXIT_SUCCESS then old(err.flinkErrno) else err.errno
  {
    ghost var m := MemOf(sub.parent);
    ghost var s0 := if sub.parent != null then sub.parent.file.st else FileState(EMPTY_MEM, -1, false, 0, 0, []);
    ghost var d0 := desc[..];
    var offset: u32 := HEADER_SIZE + SUBHEADER_SIZE + REGISTER_WITH;
    var data := new bv8[4];
    var i := 0;
    var w := 0;
    while i < INFO_DESC_SIZE
      invariant 0 <= w <= NOF_WORDS && i == 4 * w && offset == InfoOffset(w)
      invariant FirstShortRead(sub, io, 0) == FirstShortRead(sub, io, w)
      invariant sub.parent != null ==> sub.parent.file.st == InfoFileState(s0, sub, io, w)
      invariant err.errno == InfoErrno(old(err.errno), sub, io, w)
      invariant desc[..4 * w] == Description(m, sub.id, w) && desc[4 * w..] == d0[4 * w..]
      invariant err.flinkErrno == old(err.flinkErrno)
      decreases NOF_WORDS - w
    {
      WordsBound(w);
      var ok := ReadDescriptionWord(sub, w, offset, desc, data, io, err, s0, old(err.errno), m, d0);
      if !ok {
        err.LibcError();
        return EXIT_ERROR;
      }
      InfoOffsetNext(w);
      i, offset := i + 4, U32(offset as int + 4);
      w := w + 1;
    }
    WordsBound(w);
    return EXIT_SUCCESS;
  }
}
