/**
 * The PCAN bus: the constructor's validation and set-up, initialization of
 * the channel and of the receive event, sending a message, the channel
 * condition, the probe for attached USB channels, and starting a trace.
 *
 * Every driver call is an oracle: a function from the call's arguments to
 * the driver's reply. Calls whose order matters are also returned as a
 * list of the calls made.
 */
module Bus {
  import opened GoInts
  import opened Wrappers
  import opened GoCan
  import opened PcanTypes
  import opened Dlc
  import opened Codec
  import opened DriverErrors
  import opened Lookup
  import opened TracePath

  /** Status and error of a driver call that returns nothing else. */
  datatype CallReply = CallReply(status: TPCANStatus, err: Option<Error>)

  /** Status, value and error of a driver call that reads a parameter or a value. */
  datatype ValueReply = ValueReply(status: TPCANStatus, value: bv32, err: Option<Error>)

  /** What a value write passes: a 32-bit word or a byte buffer. */
  datatype ValueArg = Word(word: uint32) | Buffer(bytes: seq<byte>)

  /** A configuration call to the driver. */
  datatype DriverCall =
    | SetParameterCall(param: TPCANParameter, value: TPCANParameterValue)
    | SetValueCall(param: TPCANParameter, arg: ValueArg)

  /** The driver's reply to a configuration call on a channel. */
  type CallOracle = (TPCANHandle, DriverCall) -> CallReply
  /** The driver's reply to initializing a channel with a baud rate and hardware settings. */
  type InitOracle = (TPCANHandle, TPCANBaudrate, TPCANType, uint32, uint16) -> CallReply
  /** The driver's reply to reading a parameter or value of a channel. */
  type ReadOracle = (TPCANHandle, TPCANParameter) -> ValueReply
  /** The driver's reply to writing a classic frame. */
  type WriteOracle = (TPCANHandle, TPCANMsg) -> CallReply
  /** The driver's reply to writing an FD frame. */
  type WriteFDOracle = (TPCANHandle, TPCANMsgFD) -> CallReply
  /** The driver's reply to a call that takes only a channel: reading its status, or uninitializing it. */
  type ChannelOracle = TPCANHandle -> CallReply

  /** A reply that reports success: status OK and no error. */
  predicate Succeeded(r: CallReply) {
    r.status == PCAN_ERROR_OK && r.err.None?
  }

  // ---------------------------------------------------------------------
  // Construction

  /** Outcome of the constructor's checks: the channel's handle and baud code, or the error. */
  datatype Validated = Accepted(handle: TPCANHandle, baud: TPCANBaudrate) | Rejected(err: Error)

  /** The constructor's checks, in its order: FD, then the channel name, then the baud rate. */
  function ValidateConfig(config: Config): Validated {
    if config.isFD then Rejected(FDNotImplemented)
    else if config.channel !in StringToChannel then Rejected(InvalidChannel)
    else if config.baudRate !in IntToBaudrate then Rejected(InvalidBaudRate)
    else Accepted(StringToChannel[config.channel], IntToBaudrate[config.baudRate])
  }

  /**
   * FD is refused whatever the channel and rate; an unknown channel is
   * reported even when the rate is unknown too; a configuration is accepted
   * exactly when it is classic with a known channel and a standard rate.
   */
  lemma ValidationOrder(config: Config)
    ensures config.isFD ==> ValidateConfig(config) == Rejected(FDNotImplemented)
    ensures !config.isFD && config.channel !in StringToChannel ==> ValidateConfig(config) == Rejected(InvalidChannel)
    ensures !config.isFD && config.channel in StringToChannel && config.baudRate !in IntToBaudrate ==>
              ValidateConfig(config) == Rejected(InvalidBaudRate)
    ensures ValidateConfig(config).Accepted? ==>
              !config.isFD && config.channel in StringToChannel && config.baudRate in IntToBaudrate
    ensures !config.isFD && config.channel in StringToChannel && config.baudRate in IntToBaudrate ==>
              ValidateConfig(config) == Accepted(StringToChannel[config.channel], IntToBaudrate[config.baudRate])
  {
  }

  /** An accepted configuration's handle is the one its channel name stands for. */
  lemma AcceptedChannelMatches(config: Config)
    requires ValidateConfig(config).Accepted?
    ensures var h := ValidateConfig(config).handle;
            h in ChannelToString && ChannelToString[h] == config.channel
  {
    NameRoundTrip(config.channel);
  }

  /** An accepted configuration's baud code stands for its bit rate. */
  lemma AcceptedRateMatches(config: Config)
    requires ValidateConfig(config).Accepted?
    ensures var b := ValidateConfig(config).baud;
            b in BaudrateToInt && BaudrateToInt[b] == config.baudRate
  {
    RatesRoundTrip();
  }

  /** The listen-only setting per bus state; a state missing from it reads as 0 (off). */
  const ListenOnlyByState: map<BusState, TPCANParameterValue> :=
    map[ACTIVE := PCAN_PARAMETER_OFF, PASSIVE := PCAN_PARAMETER_ON]

  function ListenOnlyValue(state: BusState): TPCANParameterValue {
    if state in ListenOnlyByState then ListenOnlyByState[state] else 0
  }

  function OnOff(b: bool): TPCANParameterValue {
    if b then PCAN_PARAMETER_ON else PCAN_PARAMETER_OFF
  }

  /** The parameter writes the constructor makes after initializing, in order. */
  function ConfigWrites(config: Config): seq<DriverCall> {
    [ SetParameterCall(PCAN_LISTEN_ONLY, ListenOnlyValue(config.busState)),
      SetParameterCall(PCAN_ALLOW_STATUS_FRAMES, OnOff(config.recvStatusFrames)),
      SetParameterCall(PCAN_ALLOW_RTR_FRAMES, OnOff(config.recvRTRFrames)),
      SetParameterCall(PCAN_ALLOW_ERROR_FRAMES, OnOff(config.recvErrorFrames)),
      SetParameterCall(PCAN_ALLOW_ECHO_FRAMES, OnOff(config.recvEchoFrames)) ]
  }

  /**
   * Listen-only is switched on exactly for a passive bus (off for ACTIVE and
   * for any other state value), and each kind of extra frame is allowed
   * exactly when the configuration asks for it.
   */
  lemma ConfigWritesFollowConfig(config: Config)
    ensures var w := ConfigWrites(config);
            && |w| == 5
            && (forall i | 0 <= i < 5 :: w[i].SetParameterCall? && w[i].value in {PCAN_PARAMETER_OFF, PCAN_PARAMETER_ON})
            && w[0].param == PCAN_LISTEN_ONLY
            && (w[0].value == PCAN_PARAMETER_ON <==> config.busState == PASSIVE)
            && [w[1].param, w[2].param, w[3].param, w[4].param]
               == [PCAN_ALLOW_STATUS_FRAMES, PCAN_ALLOW_RTR_FRAMES, PCAN_ALLOW_ERROR_FRAMES, PCAN_ALLOW_ECHO_FRAMES]
            && (w[1].value == PCAN_PARAMETER_ON <==> config.recvStatusFrames)
            && (w[2].value == PCAN_PARAMETER_ON <==> config.recvRTRFrames)
            && (w[3].value == PCAN_PARAMETER_ON <==> config.recvErrorFrames)
            && (w[4].value == PCAN_PARAMETER_ON <==> config.recvEchoFrames)
  {
  }

  // ---------------------------------------------------------------------
  // Receive event

  /** The operating system's invalid handle value. */
  const INVALID_HANDLE: uint64 := 0xFFFF_FFFF_FFFF_FFFF

  /** A handle converted to a parameter value: its low 32 bits. */
  function HandleParameter(h: uint64): TPCANParameterValue {
    (h as int % 0x1_0000_0000) as bv32
  }

  /** Whether the receive event is in use after initialization, the event kept, and the calls made. */
  datatype EventSetup = EventSetup(hasEvents: bool, recvEvent: uint64, calls: seq<DriverCall>)

  /**
   * Initialization's event set-up: `created` is the handle the event
   * creation returned, or None when the library or the call failed.
   */
  function SetUpEvent(handle: TPCANHandle, hasEvents: bool, created: Option<uint64>, call: CallOracle): EventSetup {
    if !hasEvents then EventSetup(false, 0, [])
    else if created.Some? && created.value != 0 && created.value != INVALID_HANDLE then
      var c := SetParameterCall(PCAN_RECEIVE_EVENT, HandleParameter(created.value));
      if Succeeded(call(handle, c)) then EventSetup(true, created.value, [c])
      else EventSetup(false, 0, [c])
    else EventSetup(false, 0, [])
  }

  /**
   * Events are only ever switched off, never on; they stay on exactly when
   * a usable event was created and registered with the driver; and an event
   * is kept exactly when events stay on.
   */
  lemma EventSetupInvariant(handle: TPCANHandle, hasEvents: bool, created: Option<uint64>, call: CallOracle)
    ensures var s := SetUpEvent(handle, hasEvents, created, call);
            && (s.hasEvents ==> hasEvents)
            && (s.hasEvents <==> hasEvents && created.Some? && created.value !in {0, INVALID_HANDLE}
                                 && Succeeded(call(handle, SetParameterCall(PCAN_RECEIVE_EVENT, HandleParameter(created.value)))))
            && (s.recvEvent != 0 <==> s.hasEvents)
            && (s.hasEvents ==> s.recvEvent == created.value && s.recvEvent != INVALID_HANDLE)
            && |s.calls| <= 1
  {
  }

  // ---------------------------------------------------------------------
  // Channel condition

  /** The channel condition a condition bit mask reads as. */
  function ConditionOf(v: bv32): ChannelCondition {
    if v & PCAN_CHANNEL_AVAILABLE == PCAN_CHANNEL_AVAILABLE then Available
    else if v & PCAN_CHANNEL_OCCUPIED == PCAN_CHANNEL_OCCUPIED then Occupied
    else if v & PCAN_CHANNEL_PCANVIEW == PCAN_CHANNEL_PCANVIEW then Occupied
    else if v & PCAN_CHANNEL_UNAVAILABLE == PCAN_CHANNEL_UNAVAILABLE then Unavailable
    else Invalid
  }

  /**
   * Available exactly when bit 0 is set (PCANVIEW included), Occupied
   * exactly when bit 0 is clear and bit 1 set, Unavailable otherwise, and
   * never Invalid.
   */
  lemma ConditionOfBits(v: bv32)
    ensures ConditionOf(v) == Available <==> v & 1 == 1
    ensures ConditionOf(v) == Occupied <==> v & 1 == 0 && v & 2 == 2
    ensures ConditionOf(v) == Unavailable <==> v & 3 == 0
    ensures ConditionOf(v) != Invalid
    ensures ConditionOf(PCAN_CHANNEL_PCANVIEW) == Available
  {
  }

  // ---------------------------------------------------------------------
  // Frames built for sending

  /** Go's copy of `src` into a fresh zeroed array of n bytes. */
  method CopyIntoZeroed(src: seq<byte>, n: nat) returns (r: seq<byte>)
    ensures r == Padded(src, n)
  {
    var a := new byte[n](_ => 0);
    var k := if |src| < n then |src| else n;
    for i := 0 to k
      invariant forall j | 0 <= j < n :: a[j] == if j < i then src[j] else 0
    {
      a[i] := src[i];
    }
    r := a[..];
    assert forall j | 0 <= j < n :: r[j] == Padded(src, n)[j];
  }

  /** The classic frame Send writes for a message. */
  method BuildClassicFrame(msg: Message) returns (f: TPCANMsg)
    ensures f == EncodeClassic(msg)
  {
    var msgType := PCAN_MESSAGE_STANDARD;
    if msg.isExtended {
      msgType := PCAN_MESSAGE_EXTENDED;
    }
    var dlc := GetDLCFromLength(|msg.data|);
    var data := CopyIntoZeroed(msg.data, LENGTH_DATA_CAN_MESSAGE);
    f := TPCANMsg(msg.id, msgType, dlc, data);
  }

  /** The FD frame Send writes for a message. */
  method BuildFDFrame(msg: Message) returns (f: TPCANMsgFD)
    ensures f == EncodeFD(msg)
  {
    var data := CopyIntoZeroed(msg.data, LENGTH_DATA_CANFD_MESSAGE);
    f := TPCANMsgFD(msg.id, msg.msgType as bv8, TruncU8(|msg.data|), data);
  }

  // ---------------------------------------------------------------------
  // The bus

  class PcanBus {
    var config: Config
    var handle: TPCANHandle
    var bitrate: TPCANBaudrate
    var bitrateFD: string
    var hwType: TPCANType
    var ioPort: uint32
    var interrupt: uint16
    var recvEvent: uint64

    /** A bus for a channel and baud code, with the default hardware settings for non-plug-and-play devices. */
    constructor (config: Config, handle: TPCANHandle, bitrate: TPCANBaudrate)
      ensures this.config == config && this.handle == handle && this.bitrate == bitrate
      ensures bitrateFD == "" && hwType == PCAN_TYPE_ISA && ioPort == 0x02A0 && interrupt == 11
      ensures recvEvent == 0
    {
      this.config := config;
      this.handle := handle;
      this.bitrate := bitrate;
      bitrateFD := "";
      hwType := PCAN_TYPE_ISA;
      ioPort := 0x02A0;
      interrupt := 11;
      recvEvent := 0;
    }

    /**
     * Initializes the channel and then, when events are in use, creates the
     * receive event and registers it with the driver. Returns the error, the
     * new value of the process-wide events flag and the configuration calls made.
     */
    method Initialize(init: InitOracle, call: CallOracle, errorText: ErrorTextOracle,
                      hasEvents: bool, created: Option<uint64>)
      returns (err: Option<Error>, hasEventsAfter: bool, calls: seq<DriverCall>)
      modifies this
      ensures config == old(config) && handle == old(handle) && bitrate == old(bitrate)
      ensures bitrateFD == old(bitrateFD) && hwType == old(hwType) && ioPort == old(ioPort) && interrupt == old(interrupt)
      ensures config.isFD ==>
                err == Some(FDInitNotImplemented) && recvEvent == old(recvEvent) && hasEventsAfter == hasEvents && calls == []
      ensures !config.isFD ==>
                var r := init(handle, bitrate, hwType, ioPort, interrupt);
                var e := EvalResult(r.status, r.err, errorText);
                if e.Some? then err == e && recvEvent == old(recvEvent) && hasEventsAfter == hasEvents && calls == []
                else
                  var s := SetUpEvent(handle, hasEvents, created, call);
                  err == None && recvEvent == s.recvEvent && hasEventsAfter == s.hasEvents && calls == s.calls
    {
      hasEventsAfter := hasEvents;
      calls := [];
      if config.isFD {
        return Some(FDInitNotImplemented), hasEventsAfter, calls;
      }
      var r := init(handle, bitrate, hwType, ioPort, interrupt);
      err := EvalRetval(r.status, r.err, errorText);
      if err.Some? {
        return;
      }

      recvEvent := 0;
      if hasEventsAfter {
        if created.Some? && created.value != 0 && created.value != INVALID_HANDLE {
          recvEvent := created.value;
          var c := SetParameterCall(PCAN_RECEIVE_EVENT, HandleParameter(created.value));
          calls := [c];
          var reply := call(handle, c);
          if reply.status != PCAN_ERROR_OK || reply.err.Some? {
            hasEventsAfter := false;
            recvEvent := 0;
          }
        }
        if recvEvent == 0 || recvEvent == INVALID_HANDLE {
          hasEventsAfter := false;
        }
      }
      return None, hasEventsAfter, calls;
    }

    /** Sends a message: a classic frame, or an FD frame on an FD bus. */
    method Send(msg: Message, write: WriteOracle, writeFD: WriteFDOracle, errorText: ErrorTextOracle)
      returns (err: Option<Error>)
      ensures !config.isFD ==>
                var r := write(handle, EncodeClassic(msg));
                err == EvalResult(r.status, r.err, errorText)
      ensures config.isFD ==>
                var r := writeFD(handle, EncodeFD(msg));
                err == EvalResult(r.status, r.err, errorText)
    {
      var r: CallReply;
      if config.isFD {
        var frame := BuildFDFrame(msg);
        r := writeFD(handle, frame);
      } else {
        var frame := BuildClassicFrame(msg);
        r := write(handle, frame);
      }
      err := EvalRetval(r.status, r.err, errorText);
    }

    /** The channel condition read with GetValue, and the call's error. */
    method ChannelCondition(getValue: ReadOracle, errorText: ErrorTextOracle)
      returns (cond: ChannelCondition, err: Option<Error>)
      ensures var r := getValue(handle, PCAN_CHANNEL_CONDITION);
              cond == ConditionOf(r.value) && err == EvalResult(r.status, r.err, errorText)
    {
      var r := getValue(handle, PCAN_CHANNEL_CONDITION);
      cond := ConditionOf(r.value);
      err := EvalRetval(r.status, r.err, errorText);
    }

    /** The channel condition read with GetParameter, and the call's error. */
    method ChannelCondition2(getParameter: ReadOracle, errorText: ErrorTextOracle)
      returns (cond: ChannelCondition, err: Option<Error>)
      ensures var r := getParameter(handle, PCAN_CHANNEL_CONDITION);
              cond == ConditionOf(r.value) && err == EvalResult(r.status, r.err, errorText)
    {
      var r := getParameter(handle, PCAN_CHANNEL_CONDITION);
      cond := ConditionOf(r.value);
      err := EvalRetval(r.status, r.err, errorText);
    }

    /** The channel status as a 32-bit code, with the error it evaluates to. */
    method Status(getStatus: ChannelOracle, errorText: ErrorTextOracle) returns (code: uint32, err: Option<Error>)
      ensures var r := getStatus(handle);
              code as int == r.status as int && err == EvalResult(r.status, r.err, errorText)
    {
      var r := getStatus(handle);
      code := r.status as int as uint32;
      err := EvalRetval(r.status, r.err, errorText);
    }

    /**
     * Whether the channel status is exactly OK. A status that is not OK is
     * not turned into an error: only the call's own error is returned.
     */
    method StatusIsOkay(getStatus: ChannelOracle) returns (ok: bool, err: Option<Error>)
      ensures var r := getStatus(handle);
              (ok <==> r.status == PCAN_ERROR_OK) && err == r.err
    {
      var r := getStatus(handle);
      ok, err := r.status == PCAN_ERROR_OK, r.err;
    }

    /**
     * Uninitializes the channel and closes the receive event when there is
     * one. Returns the evaluated error and whether the event was closed.
     */
    method Shutdown(uninitialize: ChannelOracle, errorText: ErrorTextOracle)
      returns (err: Option<Error>, closedEvent: bool)
      ensures var r := uninitialize(handle);
              err == EvalResult(r.status, r.err, errorText) && (closedEvent <==> recvEvent != 0)
    {
      var r := uninitialize(handle);
      closedEvent := recvEvent != 0;
      err := EvalRetval(r.status, r.err, errorText);
    }

    /** Starts a trace into filePath, split into files of maxFileSize MB (0: one file). */
    method TraceStart(filePath: seq<byte>, maxFileSize: uint32, call: CallOracle, errorText: ErrorTextOracle)
      returns (err: Option<Error>, calls: seq<DriverCall>)
      ensures (err, calls) == TraceStartResult(handle, call, errorText, filePath, maxFileSize)
    {
      if maxFileSize as int > MAX_TRACE_FILE_SIZE_ACCEPTED {
        return Some(TraceFileTooLarge), [];
      }
      err, calls := ConfigureTrace(maxFileSize, call, errorText);
      if |filePath| <= MAX_LENGHT_STRING_BUFFER {
        RunCallsAppend(handle, call, errorText, TraceSetupCalls(maxFileSize), TraceLocationCalls(filePath));
      }
      if err.Some? {
        return;
      }
      if |filePath| > MAX_LENGHT_STRING_BUFFER {
        return Some(TracePathTooLong), calls;
      }
      var more;
      err, more := StartTraceAt(filePath, call, errorText);
      calls := calls + more;
    }

    /** The first part of TraceStart: the configuration word, then the file size when one is given. */
    method ConfigureTrace(maxFileSize: uint32, call: CallOracle, errorText: ErrorTextOracle)
      returns (err: Option<Error>, calls: seq<DriverCall>)
      ensures (err, calls) == RunCalls(handle, call, errorText, TraceSetupCalls(maxFileSize))
    {
      var cfg := TRACE_FILE_DATE | TRACE_FILE_TIME | TRACE_FILE_OVERWRITE;
      if maxFileSize > 0 {
        cfg := cfg | TRACE_FILE_SEGMENTED;
      } else {
        cfg := cfg | TRACE_FILE_SINGLE;
      }
      ghost var plan := TraceSetupCalls(maxFileSize);
      var c := SetParameterCall(PCAN_TRACE_CONFIGURE, cfg);
      assert plan[0] == c;
      calls := [c];
      var r := call(handle, c);
      if r.err.Some? || r.status != PCAN_ERROR_OK {
        RunCallsStopsAt(handle, call, errorText, plan, 0);
        err := EvalRetval(r.status, r.err, errorText);
        return;
      }
      if maxFileSize > 0 {
        c := SetValueCall(PCAN_TRACE_SIZE, Word(maxFileSize));
        calls := calls + [c];
        assert calls == plan;
        r := call(handle, c);
        if r.err.Some? || r.status != PCAN_ERROR_OK {
          RunCallsStopsAt(handle, call, errorText, plan, 1);
          err := EvalRetval(r.status, r.err, errorText);
          return;
        }
      }
      assert calls == plan;
      RunCallsAllSucceed(handle, call, errorText, plan);
      err := None;
    }

    /** The second part of TraceStart: the path buffer, then switching the trace on. */
    method StartTraceAt(filePath: seq<byte>, call: CallOracle, errorText: ErrorTextOracle)
      returns (err: Option<Error>, calls: seq<DriverCall>)
      requires |filePath| <= MAX_LENGHT_STRING_BUFFER
      ensures (err, calls) == RunCalls(handle, call, errorText, TraceLocationCalls(filePath))
    {
      ghost var plan := TraceLocationCalls(filePath);
      var buffer := CopyPath(filePath);
      var c := SetValueCall(PCAN_TRACE_LOCATION, Buffer(buffer));
      calls := [c];
      var r := call(handle, c);
      if r.err.Some? || r.status != PCAN_ERROR_OK {
        RunCallsStopsAt(handle, call, errorText, plan, 0);
        err := EvalRetval(r.status, r.err, errorText);
        return;
      }
      c := SetParameterCall(PCAN_TRACE_STATUS, PCAN_PARAMETER_ON);
      calls := calls + [c];
      assert calls == plan;
      r := call(handle, c);
      if r.err.Some? || r.status != PCAN_ERROR_OK {
        RunCallsStopsAt(handle, call, errorText, plan, 1);
      } else {
        RunCallsAllSucceed(handle, call, errorText, plan);
      }
      err := EvalRetval(r.status, r.err, errorText);
    }
  }

  /** TraceStart's copy of the path into its zeroed 256-byte buffer, one byte per character start. */
  method CopyPath(filePath: seq<byte>) returns (buf: seq<byte>)
    requires |filePath| <= MAX_LENGHT_STRING_BUFFER
    ensures buf == PathBufferAsWritten(filePath)
  {
    var buffer := new byte[MAX_LENGHT_STRING_BUFFER](_ => 0);
    var i := 0;
    assert buffer[..] == seq(MAX_LENGHT_STRING_BUFFER, _ => 0);
    while i < |filePath|
      invariant i <= |filePath|
      invariant CopyRuneStarts(filePath, buffer[..], i) == PathBufferAsWritten(filePath)
      decreases |filePath| - i
    {
      buffer[i] := filePath[i];
      i := i + RuneWidth(filePath, i);
    }
    buf := buffer[..];
  }

  /**
   * Creates a bus for a configuration: loads the driver library when it is
   * not loaded yet, validates the configuration, initializes the channel and
   * configures it. Returns the bus or the error, the new events flag and the
   * configuration calls made.
   */
  method NewPCANBus(config: Config, apiLoaded: bool, loadError: Option<Error>,
                    init: InitOracle, call: CallOracle, errorText: ErrorTextOracle,
                    hasEvents: bool, created: Option<uint64>)
    returns (bus: PcanBus?, err: Option<Error>, hasEventsAfter: bool, calls: seq<DriverCall>)
    ensures !apiLoaded && loadError.Some? ==>
              bus == null && err == loadError && hasEventsAfter == hasEvents && calls == []
    ensures (apiLoaded || loadError.None?) && ValidateConfig(config).Rejected? ==>
              bus == null && err == Some(ValidateConfig(config).err) && hasEventsAfter == hasEvents && calls == []
    ensures (apiLoaded || loadError.None?) && ValidateConfig(config).Accepted? ==>
              var v := ValidateConfig(config);
              var r := init(v.handle, v.baud, PCAN_TYPE_ISA, 0x02A0, 11);
              var e := EvalResult(r.status, r.err, errorText);
              if e.Some? then bus == null && err == e && hasEventsAfter == hasEvents && calls == []
              else
                var s := SetUpEvent(v.handle, hasEvents, created, call);
                && bus != null && fresh(bus) && err == None
                && bus.config == config && bus.handle == v.handle && bus.bitrate == v.baud
                && bus.recvEvent == s.recvEvent && hasEventsAfter == s.hasEvents
                && calls == s.calls + ConfigWrites(config)
  {
    hasEventsAfter := hasEvents;
    calls := [];
    if !apiLoaded && loadError.Some? {
      return null, loadError, hasEventsAfter, calls;
    }
    // the FD, channel and baud-rate checks, in that order
    var v := ValidateConfig(config);
    if v.Rejected? {
      return null, Some(v.err), hasEventsAfter, calls;
    }

    var newBus := new PcanBus(config, v.handle, v.baud);
    err, hasEventsAfter, calls := newBus.Initialize(init, call, errorText, hasEvents, created);
    if err.Some? {
      return null, err, hasEventsAfter, calls;
    }

    // the results of these writes are not checked
    calls := calls + ConfigWrites(config);
    return newBus, err, hasEventsAfter, calls;
  }

  // ---------------------------------------------------------------------
  // Attached channels

  /** The channels probed, in order. */
  const USB_CHANNELS: seq<TPCANHandle> :=
    [ PCAN_USBBUS1, PCAN_USBBUS2, PCAN_USBBUS3, PCAN_USBBUS4,
      PCAN_USBBUS5, PCAN_USBBUS6, PCAN_USBBUS7, PCAN_USBBUS8,
      PCAN_USBBUS9, PCAN_USBBUS10, PCAN_USBBUS11, PCAN_USBBUS12,
      PCAN_USBBUS13, PCAN_USBBUS14, PCAN_USBBUS15, PCAN_USBBUS16 ]

  /** A condition value that counts as attached: exactly AVAILABLE, OCCUPIED or PCANVIEW. */
  predicate Attached(cond: TPCANParameterValue) {
    cond == PCAN_CHANNEL_AVAILABLE || cond == PCAN_CHANNEL_OCCUPIED || cond == PCAN_CHANNEL_PCANVIEW
  }

  predicate ProbeOk(r: ValueReply) {
    r.status == PCAN_ERROR_OK && r.err.None?
  }

  /** The attached channels, or None after a failed probe, and the error. */
  datatype Probe = Probe(channels: Option<seq<TPCANHandle>>, err: Option<Error>)

  /** The probe loop over `handles`, with the channels `acc` already found. */
  function ProbeFrom(getParameter: ReadOracle, handles: seq<TPCANHandle>, acc: seq<TPCANHandle>): Probe
    decreases |handles|
  {
    if handles == [] then Probe(Some(acc), None)
    else
      var r := getParameter(handles[0], PCAN_CHANNEL_CONDITION);
      if !ProbeOk(r) then Probe(None, r.err)
      else ProbeFrom(getParameter, handles[1..], if Attached(r.value) then acc + [handles[0]] else acc)
  }

  /** The probe loop from position i on: that probe, then the rest if it succeeded. */
  lemma ProbeFromUnfold(getParameter: ReadOracle, handles: seq<TPCANHandle>, i: nat, acc: seq<TPCANHandle>)
    requires i < |handles|
    ensures var r := getParameter(handles[i], PCAN_CHANNEL_CONDITION);
            ProbeFrom(getParameter, handles[i..], acc)
            == if !ProbeOk(r) then Probe(None, r.err)
               else ProbeFrom(getParameter, handles[i + 1..], if Attached(r.value) then acc + [handles[i]] else acc)
  {
    assert handles[i..][1..] == handles[i + 1..];
  }

  /** Probes USB channels 1 to 16 in order and lists those whose condition counts as attached. */
  method AttachedChannels(getParameter: ReadOracle) returns (channels: Option<seq<TPCANHandle>>, err: Option<Error>)
    ensures Probe(channels, err) == ProbeFrom(getParameter, USB_CHANNELS, [])
  {
    var posChannels := USB_CHANNELS;
    var attached: seq<TPCANHandle> := [];
    ghost var total := ProbeFrom(getParameter, posChannels, []);
    for i := 0 to |posChannels|
      invariant ProbeFrom(getParameter, posChannels[i..], attached) == total
    {
      ProbeFromUnfold(getParameter, posChannels, i, attached);
      var r := getParameter(posChannels[i], PCAN_CHANNEL_CONDITION);
      if r.status != PCAN_ERROR_OK || r.err.Some? {
        return None, r.err;
      }
      if r.value == PCAN_CHANNEL_AVAILABLE || r.value == PCAN_CHANNEL_OCCUPIED || r.value == PCAN_CHANNEL_PCANVIEW {
        attached := attached + [posChannels[i]];
      }
    }
    assert posChannels[|posChannels|..] == [];
    return Some(attached), None;
  }

  /** Every probe of `handles` returned a condition value. */
  predicate AllProbesOk(getParameter: ReadOracle, handles: seq<TPCANHandle>) {
    forall i | 0 <= i < |handles| :: ProbeOk(getParameter(handles[i], PCAN_CHANNEL_CONDITION))
  }

  /** The position of the first probe of `handles` that failed. */
  function FirstFailedProbe(getParameter: ReadOracle, handles: seq<TPCANHandle>): (k: nat)
    requires !AllProbesOk(getParameter, handles)
    ensures k < |handles| && !ProbeOk(getParameter(handles[k], PCAN_CHANNEL_CONDITION))
    ensures forall i | 0 <= i < k :: ProbeOk(getParameter(handles[i], PCAN_CHANNEL_CONDITION))
  {
    if !ProbeOk(getParameter(handles[0], PCAN_CHANNEL_CONDITION)) then 0
    else 1 + FirstFailedProbe(getParameter, handles[1..])
  }

  /** The handles whose condition value counts as attached, in probe order. */
  function AttachedOf(getParameter: ReadOracle, handles: seq<TPCANHandle>): (r: seq<TPCANHandle>)
    ensures |r| <= |handles|
    ensures forall h :: h in r ==>
              exists i :: 0 <= i < |handles| && handles[i] == h && Attached(getParameter(h, PCAN_CHANNEL_CONDITION).value)
    ensures forall i | 0 <= i < |handles| :: Attached(getParameter(handles[i], PCAN_CHANNEL_CONDITION).value) ==> handles[i] in r
  {
    if handles == [] then []
    else
      var rest := AttachedOf(getParameter, handles[1..]);
      if Attached(getParameter(handles[0], PCAN_CHANNEL_CONDITION).value) then [handles[0]] + rest else rest
  }

  /**
   * The probe loop either lists every attached handle after `acc`, when all
   * probes succeed, or stops with no list and the error of the first probe
   * that failed.
   */
  lemma {:induction false} ProbeResult(getParameter: ReadOracle, handles: seq<TPCANHandle>, acc: seq<TPCANHandle>)
    ensures AllProbesOk(getParameter, handles) ==>
              ProbeFrom(getParameter, handles, acc) == Probe(Some(acc + AttachedOf(getParameter, handles)), None)
    ensures !AllProbesOk(getParameter, handles) ==>
              var k := FirstFailedProbe(getParameter, handles);
              ProbeFrom(getParameter, handles, acc) == Probe(None, getParameter(handles[k], PCAN_CHANNEL_CONDITION).err)
    decreases |handles|
  {
    if handles != [] {
      var r := getParameter(handles[0], PCAN_CHANNEL_CONDITION);
      if ProbeOk(r) {
        var acc' := if Attached(r.value) then acc + [handles[0]] else acc;
        ProbeResult(getParameter, handles[1..], acc');
        if AllProbesOk(getParameter, handles) {
          assert AllProbesOk(getParameter, handles[1..]) by {
            forall i | 0 <= i < |handles[1..]|
              ensures ProbeOk(getParameter(handles[1..][i], PCAN_CHANNEL_CONDITION))
            {
              assert handles[1..][i] == handles[i + 1];
            }
          }
          assert acc' + AttachedOf(getParameter, handles[1..]) == acc + AttachedOf(getParameter, handles);
        } else {
          assert !AllProbesOk(getParameter, handles[1..]) by {
            var k := FirstFailedProbe(getParameter, handles);
            assert k > 0 && handles[1..][k - 1] == handles[k];
          }
        }
      } else {
        assert !ProbeOk(getParameter(handles[0], PCAN_CHANNEL_CONDITION));
      }
    } else {
      assert acc + [] == acc;
    }
  }

  /**
   * AttachedChannels returns a list exactly when every USB probe succeeds;
   * the list is then the attached USB channels in order and there is no
   * error, otherwise the error is that of the first failed probe.
   */
  lemma AttachedChannelsResult(getParameter: ReadOracle)
    ensures var p := ProbeFrom(getParameter, USB_CHANNELS, []);
            (p.channels.Some? <==> AllProbesOk(getParameter, USB_CHANNELS))
            && (p.channels.Some? ==> p.channels.value == AttachedOf(getParameter, USB_CHANNELS) && p.err.None?)
  {
    ProbeResult(getParameter, USB_CHANNELS, []);
  }

  /**
   * The exact-value test of AttachedChannels never lists a channel the
   * condition reading calls unavailable, but it is stricter: a value with
   * other bits set beside the available bit reads as Available yet is not
   * listed.
   */
  lemma AttachedIsStricterThanCondition(v: TPCANParameterValue)
    ensures Attached(v) ==> ConditionOf(v) != Unavailable
    ensures ConditionOf(5) == Available && !Attached(5)
  {
  }

  /** The name the channel table gives a handle, or Go's zero value "" for a handle it lacks. */
  function NameOf(h: TPCANHandle): string {
    if h in ChannelToString then ChannelToString[h] else ""
  }

  /**
   * The names of the attached channels, in probe order. An error from the
   * probe is passed on with no list. A probe that fails with a status
   * other than OK but no error ends AttachedChannels with neither a list
   * nor an error, so the result is then an empty list and no error.
   */
  method AttachedChannelsNames(getParameter: ReadOracle) returns (names: Option<seq<string>>, err: Option<Error>)
    ensures var p := ProbeFrom(getParameter, USB_CHANNELS, []);
            var found := if p.channels.Some? then p.channels.value else [];
            if p.err.Some? then names == None && err == p.err
            else && err == None && names.Some? && |names.value| == |found|
                 && forall i | 0 <= i < |found| :: names.value[i] == NameOf(found[i])
  {
    var channels, probeErr := AttachedChannels(getParameter);
    if probeErr.Some? {
      return None, probeErr;
    }
    var found := if channels.Some? then channels.value else [];
    var list := ChannelNames(found);
    return Some(list), None;
  }

  /** The name of each handle, by a loop over the handles. */
  method ChannelNames(found: seq<TPCANHandle>) returns (list: seq<string>)
    ensures |list| == |found|
    ensures forall i | 0 <= i < |found| :: list[i] == NameOf(found[i])
  {
    list := [];
    for i := 0 to |found|
      invariant |list| == i
      invariant forall j | 0 <= j < i :: list[j] == NameOf(found[j])
    {
      list := list + [NameOf(found[i])];
    }
  }

  /** Every USB channel probed has a name in the channel table that maps back to it. */
  lemma UsbChannelNamed(h: TPCANHandle)
    requires h in USB_CHANNELS
    ensures h in ChannelToString && NameOf(h) == ChannelToString[h]
    ensures NameOf(h) in StringToChannel && StringToChannel[NameOf(h)] == h
  {
    UsbChannelListed(h);
    UsbHandleRoundTrip(h);
  }

  /** The probed USB channels are the handles of the USB family's channel table. */
  lemma UsbChannelListed(h: TPCANHandle)
    requires h in USB_CHANNELS
    ensures h in UsbHandlesToNames
  {
  }

  /**
   * When every probe succeeds, each name AttachedChannelsNames lists is a
   * configuration name that selects the attached channel at its position.
   */
  lemma AttachedNamesSelectChannels(getParameter: ReadOracle)
    requires AllProbesOk(getParameter, USB_CHANNELS)
    ensures var found := AttachedOf(getParameter, USB_CHANNELS);
            forall i | 0 <= i < |found| :: NameOf(found[i]) in StringToChannel && StringToChannel[NameOf(found[i])] == found[i]
  {
    var found := AttachedOf(getParameter, USB_CHANNELS);
    forall i | 0 <= i < |found|
      ensures NameOf(found[i]) in StringToChannel && StringToChannel[NameOf(found[i])] == found[i]
    {
      assert found[i] in found;
      UsbChannelNamed(found[i]);
    }
  }

  /**
   * The number of channels attached to the system as the driver counts it,
   * and the call's own error, else the formatted error of its status.
   */
  method AttachedChannelsCount(getValue: ReadOracle, errorText: ErrorTextOracle) returns (count: uint32, err: Option<Error>)
    ensures var r := getValue(PCAN_NONEBUS, PCAN_ATTACHED_CHANNELS_COUNT);
            count as int == r.value as int && err == EvalResult(r.status, r.err, errorText)
  {
    var r := getValue(PCAN_NONEBUS, PCAN_ATTACHED_CHANNELS_COUNT);
    count := r.value as int as uint32;
    if r.err.Some? {
      return count, r.err;
    }
    err := GetFormattedError(r.status, errorText);
  }

  /** Uninitializes every channel this process initialized, through the undefined-bus handle. */
  method ShutdownAllHandles(uninitialize: ChannelOracle, errorText: ErrorTextOracle) returns (err: Option<Error>)
    ensures var r := uninitialize(PCAN_NONEBUS);
            err == EvalResult(r.status, r.err, errorText)
  {
    var r := uninitialize(PCAN_NONEBUS);
    err := EvalRetval(r.status, r.err, errorText);
  }

  /**
   * StatusIsOkay and Status agree on a clean status: OK with no call error
   * is exactly what Status reports as no error. A status other than OK with
   * no call error is an error for Status but not for StatusIsOkay.
   */
  lemma StatusChecksCompared(r: CallReply, errorText: ErrorTextOracle)
    ensures (r.status == PCAN_ERROR_OK && r.err == None) <==> EvalResult(r.status, r.err, errorText) == None
    ensures r.err == None && r.status != PCAN_ERROR_OK ==> EvalResult(r.status, r.err, errorText).Some?
  {
    EvalNilIff(r.status, r.err, errorText);
  }

  // ---------------------------------------------------------------------
  // Trace start

  /** The trace configuration word: date, time and overwrite always; segmented when a size is given. */
  function TraceConfigWord(maxFileSize: uint32): TPCANParameterValue {
    TRACE_FILE_DATE | TRACE_FILE_TIME | TRACE_FILE_OVERWRITE
      | (if maxFileSize > 0 then TRACE_FILE_SEGMENTED else TRACE_FILE_SINGLE)
  }

  /** The calls TraceStart makes when each succeeds, and the check that ends it early. */
  datatype TracePlan = TracePlan(calls: seq<DriverCall>, err: Option<Error>)

  /** The configuration calls: the configuration word, then the file size when one is given. */
  function TraceSetupCalls(maxFileSize: uint32): seq<DriverCall> {
    [SetParameterCall(PCAN_TRACE_CONFIGURE, TraceConfigWord(maxFileSize))]
      + (if maxFileSize > 0 then [SetValueCall(PCAN_TRACE_SIZE, Word(maxFileSize))] else [])
  }

  /** The calls that point the trace at the path and switch it on. */
  function TraceLocationCalls(filePath: seq<byte>): seq<DriverCall>
    requires |filePath| <= MAX_LENGHT_STRING_BUFFER
  {
    [SetValueCall(PCAN_TRACE_LOCATION, Buffer(PathBufferAsWritten(filePath))),
     SetParameterCall(PCAN_TRACE_STATUS, PCAN_PARAMETER_ON)]
  }

  function TracePlanOf(filePath: seq<byte>, maxFileSize: uint32): TracePlan {
    if maxFileSize as int > MAX_TRACE_FILE_SIZE_ACCEPTED then TracePlan([], Some(TraceFileTooLarge))
    else if |filePath| > MAX_LENGHT_STRING_BUFFER then TracePlan(TraceSetupCalls(maxFileSize), Some(TracePathTooLong))
    else TracePlan(TraceSetupCalls(maxFileSize) + TraceLocationCalls(filePath), None)
  }

  /** Makes the calls in order until one fails: that call's error (or none) and the calls made. */
  function RunCalls(handle: TPCANHandle, call: CallOracle, errorText: ErrorTextOracle, calls: seq<DriverCall>)
    : (Option<Error>, seq<DriverCall>)
  {
    if calls == [] then (None, [])
    else
      var r := call(handle, calls[0]);
      if !Succeeded(r) then (EvalResult(r.status, r.err, errorText), [calls[0]])
      else
        var (e, made) := RunCalls(handle, call, errorText, calls[1..]);
        (e, [calls[0]] + made)
  }

  /** Running two lists of calls: the second runs only when every call of the first succeeded. */
  lemma {:induction false} RunCallsAppend(handle: TPCANHandle, call: CallOracle, errorText: ErrorTextOracle,
                                          first: seq<DriverCall>, second: seq<DriverCall>)
    ensures var (e1, made1) := RunCalls(handle, call, errorText, first);
            var (e2, made2) := RunCalls(handle, call, errorText, second);
            RunCalls(handle, call, errorText, first + second)
              == if e1.Some? then (e1, made1) else (e2, made1 + made2)
  {
    if first == [] {
      assert first + second == second;
      assert [] + RunCalls(handle, call, errorText, second).1 == RunCalls(handle, call, errorText, second).1;
    } else {
      assert (first + second)[0] == first[0];
      assert (first + second)[1..] == first[1..] + second;
      if Succeeded(call(handle, first[0])) {
        RunCallsAppend(handle, call, errorText, first[1..], second);
        var (e1, made1) := RunCalls(handle, call, errorText, first[1..]);
        var (e2, made2) := RunCalls(handle, call, errorText, second);
        assert [first[0]] + (made1 + made2) == ([first[0]] + made1) + made2;
      }
    }
  }

  /** The calls are made in order and stop at the first that fails, whose error is returned. */
  lemma {:induction false} RunCallsStopsAt(handle: TPCANHandle, call: CallOracle, errorText: ErrorTextOracle,
                                           calls: seq<DriverCall>, k: nat)
    requires k < |calls|
    requires forall i | 0 <= i < k :: Succeeded(call(handle, calls[i]))
    requires !Succeeded(call(handle, calls[k]))
    ensures var r := call(handle, calls[k]);
            RunCalls(handle, call, errorText, calls) == (EvalResult(r.status, r.err, errorText), calls[..k + 1])
  {
    if k > 0 {
      assert Succeeded(call(handle, calls[0]));
      RunCallsStopsAt(handle, call, errorText, calls[1..], k - 1);
      assert [calls[0]] + calls[1..][..k] == calls[..k + 1];
    } else {
      assert calls[..1] == [calls[0]];
    }
  }

  /** When every call succeeds, all are made and no error results. */
  lemma {:induction false} RunCallsAllSucceed(handle: TPCANHandle, call: CallOracle, errorText: ErrorTextOracle,
                                              calls: seq<DriverCall>)
    requires forall i | 0 <= i < |calls| :: Succeeded(call(handle, calls[i]))
    ensures RunCalls(handle, call, errorText, calls) == (None, calls)
  {
    if calls != [] {
      RunCallsAllSucceed(handle, call, errorText, calls[1..]);
      assert [calls[0]] + calls[1..] == calls;
    }
  }

  /**
   * The calls made are a prefix of the planned calls; no error means every
   * planned call was made and succeeded, and an error means the last call
   * made is the one that failed.
   */
  lemma {:induction false} RunCallsPrefix(handle: TPCANHandle, call: CallOracle, errorText: ErrorTextOracle,
                                          calls: seq<DriverCall>)
    ensures var (e, made) := RunCalls(handle, call, errorText, calls);
            made <= calls
            && (e.None? <==> forall i | 0 <= i < |calls| :: Succeeded(call(handle, calls[i])))
            && (e.None? ==> made == calls)
            && (e.Some? ==> made != [] && !Succeeded(call(handle, made[|made| - 1])))
  {
    if calls != [] {
      var r := call(handle, calls[0]);
      if Succeeded(r) {
        RunCallsPrefix(handle, call, errorText, calls[1..]);
        var (e, made) := RunCalls(handle, call, errorText, calls[1..]);
        assert [calls[0]] + calls[1..] == calls;
        if e.None? {
          forall i | 0 <= i < |calls| ensures Succeeded(call(handle, calls[i])) {
            if i > 0 { assert calls[i] == calls[1..][i - 1]; }
          }
        } else {
          var k :| 0 <= k < |calls[1..]| && !Succeeded(call(handle, calls[1..][k]));
          assert calls[k + 1] == calls[1..][k];
        }
      } else {
        DriverErrors.EvalNilIff(r.status, r.err, errorText);
      }
    }
  }

  /** The configuration word is 0x86 for a single file and 0x87 for segmented files. */
  lemma TraceConfigWordValue(maxFileSize: uint32)
    ensures TraceConfigWord(maxFileSize) == if maxFileSize > 0 then 0x87 else 0x86
  {
  }

  /** A size over 100 MB is refused before any driver call. */
  lemma TraceStartRefusesLargeFiles(handle: TPCANHandle, call: CallOracle, errorText: ErrorTextOracle,
                                    filePath: seq<byte>, maxFileSize: uint32)
    requires maxFileSize as int > MAX_TRACE_FILE_SIZE_ACCEPTED
    ensures TraceStartResult(handle, call, errorText, filePath, maxFileSize) == (Some(TraceFileTooLarge), [])
  {
  }

  /**
   * TraceStart succeeds exactly when the size is at most 100 MB, the path
   * fits the 256-byte buffer and every planned call succeeds; the calls made
   * are always a prefix of the plan, and on success the trace was configured
   * and then switched on last.
   */
  lemma TraceStartSucceedsIff(handle: TPCANHandle, call: CallOracle, errorText: ErrorTextOracle,
                              filePath: seq<byte>, maxFileSize: uint32)
    ensures var plan := TracePlanOf(filePath, maxFileSize).calls;
            var (e, made) := TraceStartResult(handle, call, errorText, filePath, maxFileSize);
            made <= plan
            && (e.None? <==> maxFileSize as int <= MAX_TRACE_FILE_SIZE_ACCEPTED
                             && |filePath| <= MAX_LENGHT_STRING_BUFFER
                             && forall i | 0 <= i < |plan| :: Succeeded(call(handle, plan[i])))
            && (e.None? ==> made[0] == SetParameterCall(PCAN_TRACE_CONFIGURE, TraceConfigWord(maxFileSize))
                            && made[|made| - 1] == SetParameterCall(PCAN_TRACE_STATUS, PCAN_PARAMETER_ON))
  {
    RunCallsPrefix(handle, call, errorText, TracePlanOf(filePath, maxFileSize).calls);
  }

  /** What TraceStart returns: the first failing call's error, else the failed check, and the calls made. */
  function TraceStartResult(handle: TPCANHandle, call: CallOracle, errorText: ErrorTextOracle,
                            filePath: seq<byte>, maxFileSize: uint32): (Option<Error>, seq<DriverCall>)
  {
    var plan := TracePlanOf(filePath, maxFileSize);
    var (e, made) := RunCalls(handle, call, errorText, plan.calls);
    if e.Some? then (e, made) else (plan.err, made)
  }
}
