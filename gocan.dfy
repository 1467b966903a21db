/**
 * The generic, driver-independent CAN message model: message kinds,
 * bus states, channel conditions, the Message record and the bus
 * configuration.
 */
module GoCan {
  import opened GoInts

  type MessageID = uint32

  /** Kind of a CAN frame; Go declares it as a uint8 enumerated with iota. */
  newtype MessageType = x: int | 0 <= x < 0x100

  const DataFrame: MessageType := 0
  const RemoteFrame: MessageType := 1
  const ErrorFrame: MessageType := 2
  const OverloadFrame: MessageType := 3
  const FDBitRateSwitchFrame: MessageType := 4
  const FDErrorStateIndicator: MessageType := 5

  /** Whether the bus may transmit (ACTIVE) or only listens (PASSIVE). */
  newtype BusState = x: int | 0 <= x < 0x100

  const ACTIVE: BusState := 0
  const PASSIVE: BusState := 1

  /** Availability of one channel handle. */
  newtype ChannelCondition = x: int | 0 <= x < 0x100

  const Available: ChannelCondition := 0
  const Occupied: ChannelCondition := 1
  const Unavailable: ChannelCondition := 2
  const Invalid: ChannelCondition := 3

  /**
   * A CAN or CAN FD message. A sender fills in id, data and isExtended;
   * timeStamp, msgType, dlc, channel, isExtended and isFD are set when a
   * message is received.
   */
  datatype Message = Message(
    id: MessageID,
    data: seq<byte>,
    timeStamp: uint64,
    msgType: MessageType,
    dlc: uint8,
    channel: string,
    isExtended: bool,
    isFD: bool)

  /** A message as a sender builds it: every receive-only field has its zero value. */
  function Outgoing(id: MessageID, data: seq<byte>, isExtended: bool): (m: Message)
    ensures m.id == id && m.data == data && m.isExtended == isExtended
    ensures m.timeStamp == 0 && m.msgType == DataFrame && m.dlc == 0 && m.channel == "" && !m.isFD
  {
    Message(id, data, 0, DataFrame, 0, "", isExtended, false)
  }

  /** Bus configuration, as read from a configuration file. */
  datatype Config = Config(
    busType: string,
    channel: string,
    baudRate: uint32,
    busState: BusState,
    isFD: bool,
    fdParameter: string,
    recvStatusFrames: bool,
    recvRTRFrames: bool,
    recvErrorFrames: bool,
    recvEchoFrames: bool)

  /** The enumerations' values, and that the zero value of MessageType is DataFrame. */
  lemma EnumerationValues()
    ensures [DataFrame, RemoteFrame, ErrorFrame, OverloadFrame, FDBitRateSwitchFrame, FDErrorStateIndicator]
            == [0, 1, 2, 3, 4, 5]
    ensures ACTIVE == 0 && PASSIVE == 1
    ensures [Available, Occupied, Unavailable, Invalid] == [0, 1, 2, 3]
  {
  }
}
