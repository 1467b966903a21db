/**
 * Conversion between the generic Message and the driver's native frames:
 * classification of the native message-type byte, decoding of a received
 * frame, and encoding of a message for sending.
 */
module Codec {
  import opened GoInts
  import opened GoCan
  import opened PcanTypes
  import opened Dlc

  /** Epoch added to every received timestamp; the adapter leaves it at zero. */
  const BOOT_TIME_EPOCH: uint64 := 0

  /** A frame one driver read delivered: classic (Read) or FD (ReadFD), with its timestamp. */
  datatype NativeFrame =
    | Classic(msg: TPCANMsg, timestamp: TPCANTimestamp)
    | FD(msgFD: TPCANMsgFD, timestampFD: TPCANTimestampFD)

  /** The zero value of a classic frame, which the FD decoding path reads its ID from. */
  const ZeroMsg: TPCANMsg := TPCANMsg(0, PCAN_MESSAGE_STANDARD, 0, [0, 0, 0, 0, 0, 0, 0, 0])

  function NativeDlc(frame: NativeFrame): uint8 {
    if frame.Classic? then frame.msg.dlc else frame.msgFD.dlc
  }

  function NativeType(frame: NativeFrame): TPCANMessageType {
    if frame.Classic? then frame.msg.msgType else frame.msgFD.msgType
  }

  function NativeData(frame: NativeFrame): seq<byte> {
    if frame.Classic? then frame.msg.data else frame.msgFD.data
  }

  /**
   * A frame whose data can be cut to its DLC length: a classic frame holds
   * 8 bytes, so a classic DLC above 8 would slice past the array.
   */
  predicate InBounds(frame: NativeFrame) {
    frame.Classic? ==> LengthFromDLC(frame.msg.dlc) <= LENGTH_DATA_CAN_MESSAGE
  }

  /** The kind of a received frame, by exact comparison of the native type byte. */
  function Classify(rxMsgType: TPCANMessageType): MessageType {
    if rxMsgType == PCAN_MESSAGE_STANDARD || rxMsgType == PCAN_MESSAGE_EXTENDED || rxMsgType == PCAN_MESSAGE_FD then DataFrame
    else if rxMsgType == PCAN_MESSAGE_RTR then RemoteFrame
    else if rxMsgType == PCAN_MESSAGE_ERRFRAME || rxMsgType == PCAN_MESSAGE_STATUS then ErrorFrame
    else if rxMsgType == PCAN_MESSAGE_BRS then FDBitRateSwitchFrame
    else if rxMsgType == PCAN_MESSAGE_ESI then FDErrorStateIndicator
    else DataFrame
  }

  /** Received timestamp in whole seconds of the driver's microsecond count. */
  function RxTimeStamp(frame: NativeFrame): (t: uint64)
    ensures frame.Classic? ==> t as int == TotalMicros(frame.timestamp) / 1_000_000
    ensures frame.FD? ==> t as int == frame.timestampFD as int / 1_000_000
  {
    if frame.Classic? then BOOT_TIME_EPOCH + (TotalMicros(frame.timestamp) / 1_000_000) as uint64
    else BOOT_TIME_EPOCH + frame.timestampFD / 1_000_000
  }

  /**
   * The message a received frame becomes. Data is cut to the length of the
   * DLC, so bytes beyond it never reach the caller.
   */
  function Decode(frame: NativeFrame, channel: string): (m: Message)
    requires InBounds(frame)
    ensures |m.data| == LengthFromDLC(m.dlc) <= |NativeData(frame)|
    ensures m.data == NativeData(frame)[..|m.data|]
    ensures m.dlc == NativeDlc(frame) && m.channel == channel
  {
    var msg := if frame.Classic? then frame.msg else ZeroMsg;
    var rxDLC := NativeDlc(frame);
    var rxMsgType := NativeType(frame);
    Message(
      id := msg.id,
      data := NativeData(frame)[..LengthFromDLC(rxDLC)],
      timeStamp := RxTimeStamp(frame),
      msgType := Classify(rxMsgType),
      dlc := rxDLC,
      channel := channel,
      isExtended := rxMsgType == PCAN_MESSAGE_EXTENDED,
      isFD := rxMsgType == PCAN_MESSAGE_FD || rxMsgType == PCAN_MESSAGE_ESI || rxMsgType == PCAN_MESSAGE_BRS)
  }

  /**
   * Classification compares the whole type byte: each kind has exactly the
   * values listed, and any other value, combined bits included, is a DataFrame.
   */
  lemma ClassifyByExactValue(t: TPCANMessageType)
    ensures Classify(t) == RemoteFrame <==> t == 0x01
    ensures Classify(t) == ErrorFrame <==> t == 0x40 || t == 0x80
    ensures Classify(t) == FDBitRateSwitchFrame <==> t == 0x08
    ensures Classify(t) == FDErrorStateIndicator <==> t == 0x10
    ensures Classify(t) == DataFrame <==> t !in {0x01, 0x08, 0x10, 0x40, 0x80}
    ensures Classify(t) != OverloadFrame
  {
  }

  /** Decoded flags: extended only for the exact EXTENDED value, FD only for FD, BRS or ESI alone. */
  lemma DecodeFlags(frame: NativeFrame, channel: string)
    requires InBounds(frame)
    ensures Decode(frame, channel).isExtended <==> NativeType(frame) == 0x02
    ensures Decode(frame, channel).isFD <==> NativeType(frame) in {0x04, 0x08, 0x10}
    ensures NativeType(frame) == PCAN_MESSAGE_FD | PCAN_MESSAGE_BRS | PCAN_MESSAGE_EXTENDED ==>
              var m := Decode(frame, channel); m.msgType == DataFrame && !m.isExtended && !m.isFD
  {
  }

  /** A classic frame keeps its ID and DLC, its first DLC bytes, and its timestamp in seconds. */
  lemma DecodeClassic(msg: TPCANMsg, ts: TPCANTimestamp, channel: string)
    requires msg.dlc <= 8
    ensures var m := Decode(Classic(msg, ts), channel);
            && m.id == msg.id && m.dlc == msg.dlc
            && m.data == msg.data[..msg.dlc]
            && m.timeStamp as int
               == (ts.micros as int + 1000 * ts.millis as int + 4294967296 * 1000 * ts.millisOverflow as int) / 1000000
  {
  }

  /** Later driver timestamps never decode to earlier message timestamps. */
  lemma TimeStampMonotonic(a: TPCANTimestamp, b: TPCANTimestamp, msg: TPCANMsg, channel: string)
    requires msg.dlc <= 8
    requires TotalMicros(a) <= TotalMicros(b)
    ensures Decode(Classic(msg, a), channel).timeStamp <= Decode(Classic(msg, b), channel).timeStamp
  {
    var x, y := TotalMicros(a), TotalMicros(b);
    assert x / 1_000_000 <= y / 1_000_000 by {
      assert x == (x / 1_000_000) * 1_000_000 + x % 1_000_000;
      assert y == (y / 1_000_000) * 1_000_000 + y % 1_000_000;
    }
  }

  /** `n` bytes holding `data` first and zero after it: Go's copy into a zeroed array. */
  function Padded(data: seq<byte>, n: nat): (r: seq<byte>)
    ensures |r| == n
    ensures forall i | 0 <= i < n :: r[i] == if i < |data| then data[i] else 0
  {
    if |data| >= n then data[..n] else data + seq(n - |data|, _ => 0)
  }

  /**
   * The classic frame Send writes: EXTENDED or STANDARD type by the
   * extended flag, the DLC of the payload length, and the first 8 bytes
   * of the payload in a zeroed array.
   */
  function EncodeClassic(msg: Message): (f: TPCANMsg)
    ensures f.id == msg.id
    ensures f.msgType == PCAN_MESSAGE_EXTENDED <==> msg.isExtended
    ensures f.msgType in {PCAN_MESSAGE_STANDARD, PCAN_MESSAGE_EXTENDED}
    ensures f.dlc == DLCFromLength(|msg.data|)
    ensures forall i | 0 <= i < LENGTH_DATA_CAN_MESSAGE :: f.data[i] == if i < |msg.data| then msg.data[i] else 0
  {
    var msgType := if msg.isExtended then PCAN_MESSAGE_EXTENDED else PCAN_MESSAGE_STANDARD;
    TPCANMsg(msg.id, msgType, DLCFromLength(|msg.data|), Padded(msg.data, LENGTH_DATA_CAN_MESSAGE))
  }

  /** Only what a sender supplies (ID, data, extended flag) reaches the classic frame. */
  lemma EncodeClassicUsesSenderFields(a: Message, b: Message)
    requires a.id == b.id && a.data == b.data && a.isExtended == b.isExtended
    ensures EncodeClassic(a) == EncodeClassic(b)
  {
  }

  /**
   * Sending a classic message of at most 8 bytes and receiving the echo
   * of that frame gives back its ID, data and extended flag, as a data
   * frame whose DLC is the payload length.
   */
  lemma {:induction false} ClassicEchoRoundTrip(msg: Message, ts: TPCANTimestamp, channel: string)
    requires |msg.data| <= LENGTH_DATA_CAN_MESSAGE
    ensures InBounds(Classic(EncodeClassic(msg), ts))
    ensures var m := Decode(Classic(EncodeClassic(msg), ts), channel);
            && m.id == msg.id && m.data == msg.data && m.isExtended == msg.isExtended
            && m.dlc as int == |msg.data| && m.msgType == DataFrame && !m.isFD
  {
    var f := EncodeClassic(msg);
    assert f.dlc as int == |msg.data|;
    var m := Decode(Classic(f, ts), channel);
    assert m.data == f.data[..|msg.data|];
    assert m.data == msg.data;
  }

  /**
   * A classic payload of 9..64 bytes is cut to 8 bytes while its DLC still
   * claims more than 8.
   */
  lemma OversizedClassicPayload(msg: Message)
    requires LENGTH_DATA_CAN_MESSAGE < |msg.data| <= LENGTH_DATA_CANFD_MESSAGE
    ensures EncodeClassic(msg).dlc > 8
    ensures EncodeClassic(msg).data == msg.data[..8]
  {
    DLCCovers(|msg.data|);
  }

  // ---------------------------------------------------------------------
  // FD path, as written and as evidently intended

  /**
   * The FD frame Send writes: the message kind cast to the type byte, and
   * uint8 of the raw payload length as the DLC.
   */
  function EncodeFD(msg: Message): (f: TPCANMsgFD)
    ensures f.id == msg.id && f.msgType == msg.msgType as bv8
    ensures f.dlc as int == |msg.data| % 0x100
    ensures forall i | 0 <= i < LENGTH_DATA_CANFD_MESSAGE :: f.data[i] == if i < |msg.data| then msg.data[i] else 0
  {
    TPCANMsgFD(msg.id, msg.msgType as bv8, TruncU8(|msg.data|), Padded(msg.data, LENGTH_DATA_CANFD_MESSAGE))
  }

  /** Decoding an FD frame takes the ID of the unused classic frame: always 0. */
  lemma FDDecodeDropsId(msgFD: TPCANMsgFD, ts: TPCANTimestampFD, channel: string)
    ensures Decode(FD(msgFD, ts), channel).id == 0
    ensures msgFD.id == 0x123 ==> Decode(FD(msgFD, ts), channel).id != msgFD.id
  {
  }

  /** A 12-byte FD payload is written with DLC 12, which stands for 24 bytes. */
  lemma FDEncodeRawLength(msg: Message)
    requires |msg.data| == 12
    ensures EncodeFD(msg).dlc == 12
    ensures LengthFromDLC(EncodeFD(msg).dlc) == 24
  {
  }

  /** FD decoding with the FD frame's own ID. */
  function DecodeFDIntended(msgFD: TPCANMsgFD, ts: TPCANTimestampFD, channel: string): (m: Message)
    ensures m.id == msgFD.id
    ensures m.data == msgFD.data[..LengthFromDLC(msgFD.dlc)] && m.dlc == msgFD.dlc
  {
    Decode(FD(msgFD, ts), channel).(id := msgFD.id)
  }

  /** FD encoding with the DLC code of the payload length. */
  function EncodeFDIntended(msg: Message): (f: TPCANMsgFD)
    ensures f.id == msg.id && f.dlc == DLCFromLength(|msg.data|)
    ensures forall i | 0 <= i < LENGTH_DATA_CANFD_MESSAGE :: f.data[i] == if i < |msg.data| then msg.data[i] else 0
  {
    EncodeFD(msg).(dlc := DLCFromLength(|msg.data|))
  }

  /**
   * With both corrections, an FD payload of up to 64 bytes comes back with
   * its ID, its data first and zero padding up to the length of its DLC
   * code; a payload whose length is a table entry comes back unchanged.
   */
  lemma {:induction false} FDRoundTripIntended(msg: Message, ts: TPCANTimestampFD, channel: string)
    requires |msg.data| <= LENGTH_DATA_CANFD_MESSAGE
    ensures var m := DecodeFDIntended(EncodeFDIntended(msg), ts, channel);
            && m.id == msg.id
            && |msg.data| <= |m.data|
            && m.data[..|msg.data|] == msg.data
            && (forall i | |msg.data| <= i < |m.data| :: m.data[i] == 0)
            && (|msg.data| as uint8 in CAN_FD_DLC ==> m.data == msg.data)
  {
    var n := |msg.data|;
    var f := EncodeFDIntended(msg);
    var m := DecodeFDIntended(f, ts, channel);
    DLCCovers(n);
    assert m.data[..n] == msg.data;
    if n as uint8 in CAN_FD_DLC {
      var d :| 0 <= d < |CAN_FD_DLC| && CAN_FD_DLC[d] == n as uint8;
      DLCRoundTrip(d as uint8);
      assert LengthFromDLC(d as uint8) == n;
    }
  }
}
