/**
 * Errors of the bus adapter and the translation of driver status codes
 * into errors: a status other than OK becomes the driver's description of
 * it, cut at the first NUL byte.
 */
module DriverErrors {
  import opened GoInts
  import opened Wrappers
  import opened PcanTypes

  /** Error values the adapter returns. */
  datatype Error =
    | SystemError(code: nat)            // an error from the operating-system call layer, passed on as it is
    | DriverText(text: seq<byte>)       // the driver's description of a status
    | NoErrorText(status: TPCANStatus)  // the driver could not describe a status
    | InvalidChannel                    // the configured channel name is unknown
    | InvalidBaudRate                   // the configured baud rate is not a standard one
    | FDNotImplemented                  // an FD bus was requested from the constructor
    | FDInitNotImplemented              // an FD bus was asked to initialize
    | TraceFileTooLarge                 // a trace file size above 100 MB was requested
    | TracePathTooLong                  // a trace path longer than the driver's string buffer

  /** Language of every error description the adapter asks for. */
  const StandardLanguage: TPCANLanguage := LanguageNeutral

  /** The fixed buffer the driver writes a description into. */
  type TextBuffer = s: seq<byte> | |s| == MAX_LENGHT_STRING_BUFFER witness seq(256, _ => 0)

  /** What the driver's error-text call returns. */
  datatype ErrorTextReply = ErrorTextReply(status: TPCANStatus, buffer: TextBuffer, err: Option<Error>)

  /** The driver's error-text call, for a status and a language. */
  type ErrorTextOracle = (TPCANStatus, TPCANLanguage) -> ErrorTextReply

  /** Index of the first NUL byte of `buf` at or after `from`, or |buf| when there is none. */
  function FirstNul(buf: seq<byte>, from: nat): (k: nat)
    requires from <= |buf|
    ensures from <= k <= |buf|
    ensures k < |buf| ==> buf[k] == 0
    ensures forall j | from <= j < k :: buf[j] != 0
    decreases |buf| - from
  {
    if from == |buf| then |buf|
    else if buf[from] == 0 then from
    else FirstNul(buf, from + 1)
  }

  /** The text of a NUL-terminated buffer; a buffer without NUL gives the empty text. */
  function TextBeforeNul(buf: seq<byte>): seq<byte> {
    var k := FirstNul(buf, 0);
    if k < |buf| then buf[..k] else []
  }

  /** The text is the part before the first NUL, holds no NUL, and is empty when there is no NUL. */
  lemma TextStopsAtNul(buf: seq<byte>, k: nat)
    requires k < |buf| && buf[k] == 0
    requires forall j | 0 <= j < k :: buf[j] != 0
    ensures TextBeforeNul(buf) == buf[..k]
  {
  }

  /** Without a NUL the text is empty; with one it is a NUL-free prefix of the buffer. */
  lemma TextShape(buf: seq<byte>)
    ensures (forall j | 0 <= j < |buf| :: buf[j] != 0) ==> TextBeforeNul(buf) == []
    ensures TextBeforeNul(buf) <= buf
    ensures forall j | 0 <= j < |TextBeforeNul(buf)| :: TextBeforeNul(buf)[j] != 0
  {
  }

  /** The error for a status: none for OK, otherwise the driver's description of it. */
  function FormattedError(status: TPCANStatus, errorText: ErrorTextOracle): Option<Error> {
    if status == PCAN_ERROR_OK then None
    else
      var reply := errorText(status, StandardLanguage);
      if reply.err.Some? then reply.err
      else if reply.status != PCAN_ERROR_OK then Some(NoErrorText(status))
      else Some(DriverText(TextBeforeNul(reply.buffer)))
  }

  /** Looks up the description of a status, scanning the driver's buffer for its terminator. */
  method GetFormattedError(status: TPCANStatus, errorText: ErrorTextOracle) returns (err: Option<Error>)
    ensures err == FormattedError(status, errorText)
  {
    if status == PCAN_ERROR_OK {
      return None;
    }
    var reply := errorText(status, StandardLanguage);
    if reply.err.Some? {
      return reply.err;
    }
    if reply.status != PCAN_ERROR_OK {
      return Some(NoErrorText(status));
    }
    var buffer := reply.buffer;
    var numBytes := 0;
    var i := 0;
    while i < |buffer|
      invariant 0 <= i <= |buffer|
      invariant FirstNul(buffer, i) == FirstNul(buffer, 0)
      invariant numBytes == 0
    {
      if buffer[i] == 0 {
        numBytes := i;
        break;
      }
      i := i + 1;
    }
    return Some(DriverText(buffer[..numBytes]));
  }

  /** The error a driver call ends in: the call's own error first, then its status. */
  function EvalResult(status: TPCANStatus, err: Option<Error>, errorText: ErrorTextOracle): Option<Error> {
    if err.Some? then err
    else if status != PCAN_ERROR_OK then FormattedError(status, errorText)
    else None
  }

  /** evalRetval: the call's error if there is one, otherwise the error of its status. */
  method EvalRetval(status: TPCANStatus, err: Option<Error>, errorText: ErrorTextOracle) returns (r: Option<Error>)
    ensures r == EvalResult(status, err, errorText)
  {
    r := err;
    if r.Some? {
      return;
    }
    if status != PCAN_ERROR_OK {
      r := GetFormattedError(status, errorText);
    }
  }

  /**
   * A driver call succeeds exactly when it reports no error and status OK;
   * every other status fails it, even one whose description is empty.
   */
  lemma EvalNilIff(status: TPCANStatus, err: Option<Error>, errorText: ErrorTextOracle)
    ensures EvalResult(status, err, errorText) == None <==> err == None && status == PCAN_ERROR_OK
    ensures err.Some? ==> EvalResult(status, err, errorText) == err
  {
  }
}
