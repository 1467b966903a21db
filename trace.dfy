/**
 * The trace-file path buffer: the path is copied into the driver's 256-byte
 * string buffer by a loop over the path's rune start indices, as Go's
 * `range` over a string yields them.
 */
module TracePath {
  import opened GoInts
  import opened PcanTypes
  import opened DriverErrors
  import opened Codec

  /**
   * Width of the rune starting at byte i of s, as Go decodes UTF-8: the
   * length of a well-formed encoding, and 1 for an ASCII byte or any
   * malformed or truncated encoding.
   */
  function RuneWidth(s: seq<byte>, i: nat): (w: nat)
    requires i < |s|
    ensures 1 <= w <= 4 && i + w <= |s|
    ensures s[i] < 0x80 ==> w == 1
    ensures w > 1 ==> forall k | i < k < i + w :: 0x80 <= s[k] <= 0xBF
  {
    var b0 := s[i];
    var size: nat := if b0 < 0xC2 || b0 > 0xF4 then 1 else if b0 < 0xE0 then 2 else if b0 < 0xF0 then 3 else 4;
    // the allowed range of the second byte excludes overlong forms, surrogates and code points above U+10FFFF
    var lo: byte := if b0 == 0xE0 then 0xA0 else if b0 == 0xF0 then 0x90 else 0x80;
    var hi: byte := if b0 == 0xED then 0x9F else if b0 == 0xF4 then 0x8F else 0xBF;
    if size == 1 || |s| - i < size then 1
    else if !(lo <= s[i + 1] <= hi) then 1
    else if size == 2 then 2
    else if !(0x80 <= s[i + 2] <= 0xBF) then 1
    else if size == 3 then 3
    else if !(0x80 <= s[i + 3] <= 0xBF) then 1
    else 4
  }

  /** `buf` after the copy loop has run from rune start i to the end of the path. */
  function CopyRuneStarts(path: seq<byte>, buf: seq<byte>, i: nat): (r: seq<byte>)
    requires |path| <= |buf|
    ensures |r| == |buf|
    decreases |path| - i
  {
    if i >= |path| then buf
    else CopyRuneStarts(path, buf[i := path[i]], i + RuneWidth(path, i))
  }

  /** The 256-byte buffer TraceStart hands to the driver for a path that fits. */
  function PathBufferAsWritten(path: seq<byte>): (buf: seq<byte>)
    requires |path| <= MAX_LENGHT_STRING_BUFFER
    ensures |buf| == MAX_LENGHT_STRING_BUFFER
  {
    CopyRuneStarts(path, seq(MAX_LENGHT_STRING_BUFFER, _ => 0), 0)
  }

  /** The copy loop writes only below |path|: the rest of `buf` is kept. */
  lemma {:induction false} CopyKeepsTail(path: seq<byte>, buf: seq<byte>, i: nat)
    requires |path| <= |buf|
    ensures forall j | |path| <= j < |buf| :: CopyRuneStarts(path, buf, i)[j] == buf[j]
    decreases |path| - i
  {
    if i < |path| {
      CopyKeepsTail(path, buf[i := path[i]], i + RuneWidth(path, i));
    }
  }

  /** On an ASCII path the copy loop visits every byte from i on. */
  lemma {:induction false} CopyAscii(path: seq<byte>, buf: seq<byte>, i: nat)
    requires |path| <= |buf|
    requires forall j | 0 <= j < |path| :: path[j] < 0x80
    ensures forall j | 0 <= j < |buf| ::
              CopyRuneStarts(path, buf, i)[j] == if i <= j < |path| then path[j] else buf[j]
    decreases |path| - i
  {
    if i < |path| {
      CopyAscii(path, buf[i := path[i]], i + 1);
    }
  }

  /** The buffer is zero past the path, so a path shorter than 256 bytes is NUL-terminated. */
  lemma PathBufferTail(path: seq<byte>)
    requires |path| <= MAX_LENGHT_STRING_BUFFER
    ensures forall j | |path| <= j < MAX_LENGHT_STRING_BUFFER :: PathBufferAsWritten(path)[j] == 0
  {
    CopyKeepsTail(path, seq(MAX_LENGHT_STRING_BUFFER, _ => 0), 0);
  }

  /** For an ASCII path the buffer holds the whole path followed by zeros. */
  lemma AsciiPathCopied(path: seq<byte>)
    requires |path| <= MAX_LENGHT_STRING_BUFFER
    requires forall j | 0 <= j < |path| :: path[j] < 0x80
    ensures PathBufferAsWritten(path) == PathBuffer(path)
  {
    CopyAscii(path, seq(MAX_LENGHT_STRING_BUFFER, _ => 0), 0);
  }

  /**
   * A path with a two-byte character loses its second byte: for "é"
   * (0xC3 0xA9) the buffer holds 0xC3 0x00, so the driver reads a
   * one-byte path.
   */
  lemma MultiByteCharacterTruncated()
    ensures PathBufferAsWritten([0xC3, 0xA9])[..2] == [0xC3, 0x00]
    ensures TextBeforeNul(PathBufferAsWritten([0xC3, 0xA9])) == [0xC3]
  {
    var path: seq<byte> := [0xC3, 0xA9];
    var zero: seq<byte> := seq(MAX_LENGHT_STRING_BUFFER, _ => 0);
    assert RuneWidth(path, 0) == 2;
    assert PathBufferAsWritten(path) == zero[0 := 0xC3];
    TextStopsAtNul(zero[0 := 0xC3], 1);
  }

  /** The buffer as intended: every byte of the path, then zeros. */
  function PathBuffer(path: seq<byte>): (buf: seq<byte>)
    requires |path| <= MAX_LENGHT_STRING_BUFFER
    ensures |buf| == MAX_LENGHT_STRING_BUFFER
    ensures buf[..|path|] == path
    ensures forall j | |path| <= j < |buf| :: buf[j] == 0
  {
    Padded(path, MAX_LENGHT_STRING_BUFFER)
  }

  /** The intended buffer gives the driver back the whole path, whatever its characters. */
  lemma PathBufferRoundTrip(path: seq<byte>)
    requires |path| < MAX_LENGHT_STRING_BUFFER
    requires forall j | 0 <= j < |path| :: path[j] != 0
    ensures TextBeforeNul(PathBuffer(path)) == path
  {
    var buf := PathBuffer(path);
    assert forall j | 0 <= j < |path| :: buf[j] == path[j];
    TextStopsAtNul(buf, |path|);
  }

  /**
   * The length guard admits a path of exactly the buffer's size: the path
   * then fills the whole buffer and no NUL terminates it, so the buffer
   * alone does not say where the path ends: read back as NUL-terminated
   * text it gives nothing, where every shorter path comes back whole.
   */
  lemma FullPathUnterminated(path: seq<byte>)
    requires |path| == MAX_LENGHT_STRING_BUFFER
    requires forall j | 0 <= j < |path| :: path[j] != 0
    ensures PathBuffer(path) == path
    ensures forall j | 0 <= j < MAX_LENGHT_STRING_BUFFER :: PathBuffer(path)[j] != 0
    ensures TextBeforeNul(PathBuffer(path)) == [] != path
  {
    var buf := PathBuffer(path);
    assert buf == buf[..|path|];
    TextShape(buf);
  }
}
