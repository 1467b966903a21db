/**
 * Constants and fixed frame layouts of the PCAN-Basic driver interface:
 * channel handles, status codes, parameters, message-type bits, baud-rate
 * register values, and the classic, FD and timestamp records.
 */
module PcanTypes {
  import opened GoInts

  type TPCANLanguage = uint16
  type TPCANHandle = uint16
  /** Status codes are a bit mask of conditions. */
  type TPCANStatus = bv32
  type TPCANParameter = uint8
  type TPCANParameterValue = bv32
  type TPCANMessageType = bv8
  type TPCANMode = bv8
  type TPCANBaudrate = uint16
  type TPCANType = uint8
  type TPCANMsgID = uint32
  type TPCANTimestampFD = uint64

  const MAX_LENGTH_HARDWARE_NAME := 33
  const MAX_LENGHT_STRING_BUFFER := 256
  const MAX_TRACE_FILE_SIZE_ACCEPTED := 100

  const LENGTH_DATA_CAN_MESSAGE := 8
  const LENGTH_DATA_CANFD_MESSAGE := 64

  const LanguageNeutral: TPCANLanguage := 0x00
  const LanguageGerman: TPCANLanguage := 0x07
  const LanguageEnglish: TPCANLanguage := 0x09
  const LanguageItalian: TPCANLanguage := 0x10
  const LanguageSpanish: TPCANLanguage := 0x0A
  const LanguageFrench: TPCANLanguage := 0x0C

  // Channel handles
  const PCAN_NONEBUS: TPCANHandle := 0x00
  const PCAN_ISABUS1: TPCANHandle := 0x21
  const PCAN_ISABUS2: TPCANHandle := 0x22
  const PCAN_ISABUS3: TPCANHandle := 0x23
  const PCAN_ISABUS4: TPCANHandle := 0x24
  const PCAN_ISABUS5: TPCANHandle := 0x25
  const PCAN_ISABUS6: TPCANHandle := 0x26
  const PCAN_ISABUS7: TPCANHandle := 0x27
  const PCAN_ISABUS8: TPCANHandle := 0x28
  const PCAN_DNGBUS1: TPCANHandle := 0x31
  const PCAN_PCIBUS1: TPCANHandle := 0x41
  const PCAN_PCIBUS2: TPCANHandle := 0x42
  const PCAN_PCIBUS3: TPCANHandle := 0x43
  const PCAN_PCIBUS4: TPCANHandle := 0x44
  const PCAN_PCIBUS5: TPCANHandle := 0x45
  const PCAN_PCIBUS6: TPCANHandle := 0x46
  const PCAN_PCIBUS7: TPCANHandle := 0x47
  const PCAN_PCIBUS8: TPCANHandle := 0x48
  const PCAN_PCIBUS9: TPCANHandle := 0x409
  const PCAN_PCIBUS10: TPCANHandle := 0x40a
  const PCAN_PCIBUS11: TPCANHandle := 0x40b
  const PCAN_PCIBUS12: TPCANHandle := 0x40c
  const PCAN_PCIBUS13: TPCANHandle := 0x40d
  const PCAN_PCIBUS14: TPCANHandle := 0x40e
  const PCAN_PCIBUS15: TPCANHandle := 0x40f
  const PCAN_PCIBUS16: TPCANHandle := 0x410
  const PCAN_USBBUS1: TPCANHandle := 0x51
  const PCAN_USBBUS2: TPCANHandle := 0x52
  const PCAN_USBBUS3: TPCANHandle := 0x53
  const PCAN_USBBUS4: TPCANHandle := 0x54
  const PCAN_USBBUS5: TPCANHandle := 0x55
  const PCAN_USBBUS6: TPCANHandle := 0x56
  const PCAN_USBBUS7: TPCANHandle := 0x57
  const PCAN_USBBUS8: TPCANHandle := 0x58
  const PCAN_USBBUS9: TPCANHandle := 0x509
  const PCAN_USBBUS10: TPCANHandle := 0x50a
  const PCAN_USBBUS11: TPCANHandle := 0x50b
  const PCAN_USBBUS12: TPCANHandle := 0x50c
  const PCAN_USBBUS13: TPCANHandle := 0x50d
  const PCAN_USBBUS14: TPCANHandle := 0x50e
  const PCAN_USBBUS15: TPCANHandle := 0x50f
  const PCAN_USBBUS16: TPCANHandle := 0x510
  const PCAN_PCCBUS1: TPCANHandle := 0x61
  const PCAN_PCCBUS2: TPCANHandle := 0x62
  const PCAN_LANBUS1: TPCANHandle := 0x801
  const PCAN_LANBUS2: TPCANHandle := 0x802
  const PCAN_LANBUS3: TPCANHandle := 0x803
  const PCAN_LANBUS4: TPCANHandle := 0x804
  const PCAN_LANBUS5: TPCANHandle := 0x805
  const PCAN_LANBUS6: TPCANHandle := 0x806
  const PCAN_LANBUS7: TPCANHandle := 0x807
  const PCAN_LANBUS8: TPCANHandle := 0x808
  const PCAN_LANBUS9: TPCANHandle := 0x809
  const PCAN_LANBUS10: TPCANHandle := 0x80a
  const PCAN_LANBUS11: TPCANHandle := 0x80b
  const PCAN_LANBUS12: TPCANHandle := 0x80c
  const PCAN_LANBUS13: TPCANHandle := 0x80d
  const PCAN_LANBUS14: TPCANHandle := 0x80e
  const PCAN_LANBUS15: TPCANHandle := 0x80f
  const PCAN_LANBUS16: TPCANHandle := 0x810

  // Status codes
  const PCAN_ERROR_OK: TPCANStatus := 0x00000
  const PCAN_ERROR_XMTFULL: TPCANStatus := 0x00001
  const PCAN_ERROR_OVERRUN: TPCANStatus := 0x00002
  const PCAN_ERROR_BUSLIGHT: TPCANStatus := 0x00004
  const PCAN_ERROR_BUSHEAVY: TPCANStatus := 0x00008
  const PCAN_ERROR_BUSWARNING: TPCANStatus := PCAN_ERROR_BUSHEAVY
  const PCAN_ERROR_BUSPASSIVE: TPCANStatus := 0x40000
  const PCAN_ERROR_BUSOFF: TPCANStatus := 0x00010
  const PCAN_ERROR_ANYBUSERR: TPCANStatus :=
    PCAN_ERROR_BUSWARNING | PCAN_ERROR_BUSLIGHT | PCAN_ERROR_BUSHEAVY | PCAN_ERROR_BUSOFF | PCAN_ERROR_BUSPASSIVE
  const PCAN_ERROR_QRCVEMPTY: TPCANStatus := 0x00020
  const PCAN_ERROR_QOVERRUN: TPCANStatus := 0x00040
  const PCAN_ERROR_QXMTFULL: TPCANStatus := 0x00080
  const PCAN_ERROR_REGTEST: TPCANStatus := 0x00100
  const PCAN_ERROR_NODRIVER: TPCANStatus := 0x00200
  const PCAN_ERROR_HWINUSE: TPCANStatus := 0x00400
  const PCAN_ERROR_NETINUSE: TPCANStatus := 0x00800
  const PCAN_ERROR_ILLHW: TPCANStatus := 0x01400
  const PCAN_ERROR_ILLNET: TPCANStatus := 0x01800
  const PCAN_ERROR_ILLCLIENT: TPCANStatus := 0x01C00
  const PCAN_ERROR_ILLHANDLE: TPCANStatus := PCAN_ERROR_ILLHW | PCAN_ERROR_ILLNET | PCAN_ERROR_ILLCLIENT
  const PCAN_ERROR_RESOURCE: TPCANStatus := 0x02000
  const PCAN_ERROR_ILLPARAMTYPE: TPCANStatus := 0x04000
  const PCAN_ERROR_ILLPARAMVAL: TPCANStatus := 0x08000
  const PCAN_ERROR_UNKNOWN: TPCANStatus := 0x10000
  const PCAN_ERROR_ILLDATA: TPCANStatus := 0x20000
  const PCAN_ERROR_ILLMODE: TPCANStatus := 0x80000
  const PCAN_ERROR_CAUTION: TPCANStatus := 0x2000000
  const PCAN_ERROR_INITIALIZE: TPCANStatus := 0x4000000
  const PCAN_ERROR_ILLOPERATION: TPCANStatus := 0x8000000

  // Parameters used by the bus adapter
  const PCAN_RECEIVE_EVENT: TPCANParameter := 3
  const PCAN_LISTEN_ONLY: TPCANParameter := 8
  const PCAN_CHANNEL_CONDITION: TPCANParameter := 13
  const PCAN_TRACE_LOCATION: TPCANParameter := 17
  const PCAN_TRACE_STATUS: TPCANParameter := 18
  const PCAN_TRACE_SIZE: TPCANParameter := 19
  const PCAN_TRACE_CONFIGURE: TPCANParameter := 20
  const PCAN_CHANNEL_IDENTIFYING: TPCANParameter := 21
  const PCAN_ALLOW_STATUS_FRAMES: TPCANParameter := 30
  const PCAN_ALLOW_RTR_FRAMES: TPCANParameter := 31
  const PCAN_ALLOW_ERROR_FRAMES: TPCANParameter := 32
  const PCAN_ATTACHED_CHANNELS_COUNT: TPCANParameter := 42
  const PCAN_ALLOW_ECHO_FRAMES: TPCANParameter := 44

  const PCAN_PARAMETER_OFF: TPCANParameterValue := 0x00
  const PCAN_PARAMETER_ON: TPCANParameterValue := 0x01

  const PCAN_CHANNEL_UNAVAILABLE: TPCANParameterValue := 0x00
  const PCAN_CHANNEL_AVAILABLE: TPCANParameterValue := 0x01
  const PCAN_CHANNEL_OCCUPIED: TPCANParameterValue := 0x02
  const PCAN_CHANNEL_PCANVIEW: TPCANParameterValue := PCAN_CHANNEL_AVAILABLE | PCAN_CHANNEL_OCCUPIED

  const TRACE_FILE_SINGLE: TPCANParameterValue := 0x00
  const TRACE_FILE_SEGMENTED: TPCANParameterValue := 0x01
  const TRACE_FILE_DATE: TPCANParameterValue := 0x02
  const TRACE_FILE_TIME: TPCANParameterValue := 0x04
  const TRACE_FILE_OVERWRITE: TPCANParameterValue := 0x80

  // Message-type bits
  const PCAN_MESSAGE_STANDARD: TPCANMessageType := 0x00
  const PCAN_MESSAGE_RTR: TPCANMessageType := 0x01
  const PCAN_MESSAGE_EXTENDED: TPCANMessageType := 0x02
  const PCAN_MESSAGE_FD: TPCANMessageType := 0x04
  const PCAN_MESSAGE_BRS: TPCANMessageType := 0x08
  const PCAN_MESSAGE_ESI: TPCANMessageType := 0x10
  const PCAN_MESSAGE_ECHO: TPCANMessageType := 0x20
  const PCAN_MESSAGE_ERRFRAME: TPCANMessageType := 0x40
  const PCAN_MESSAGE_STATUS: TPCANMessageType := 0x80

  const PCAN_MODE_STANDARD: TPCANMode := PCAN_MESSAGE_STANDARD
  const PCAN_MODE_EXTENDED: TPCANMode := PCAN_MESSAGE_EXTENDED

  // Baud-rate register values (BTR0/BTR1)
  const PCAN_BAUD_1M: TPCANBaudrate := 0x0014
  const PCAN_BAUD_800K: TPCANBaudrate := 0x0016
  const PCAN_BAUD_500K: TPCANBaudrate := 0x001C
  const PCAN_BAUD_250K: TPCANBaudrate := 0x011C
  const PCAN_BAUD_125K: TPCANBaudrate := 0x031C
  const PCAN_BAUD_100K: TPCANBaudrate := 0x432F
  const PCAN_BAUD_95K: TPCANBaudrate := 0xC34E
  const PCAN_BAUD_83K: TPCANBaudrate := 0x852B
  const PCAN_BAUD_50K: TPCANBaudrate := 0x472F
  const PCAN_BAUD_47K: TPCANBaudrate := 0x1414
  const PCAN_BAUD_33K: TPCANBaudrate := 0x8B2F
  const PCAN_BAUD_20K: TPCANBaudrate := 0x532F
  const PCAN_BAUD_10K: TPCANBaudrate := 0x672F
  const PCAN_BAUD_5K: TPCANBaudrate := 0x7F7F

  const PCAN_TYPE_ISA: TPCANType := 0x01

  /** The 8 data bytes of a classic frame. */
  type ClassicData = s: seq<byte> | |s| == LENGTH_DATA_CAN_MESSAGE witness [0, 0, 0, 0, 0, 0, 0, 0]
  /** The 64 data bytes of an FD frame. */
  type FDData = s: seq<byte> | |s| == LENGTH_DATA_CANFD_MESSAGE witness seq(64, _ => 0)

  /** A classic CAN frame as the driver reads and writes it. */
  datatype TPCANMsg = TPCANMsg(id: TPCANMsgID, msgType: TPCANMessageType, dlc: uint8, data: ClassicData)

  /** A CAN FD frame as the driver reads and writes it. */
  datatype TPCANMsgFD = TPCANMsgFD(id: TPCANMsgID, msgType: TPCANMessageType, dlc: uint8, data: FDData)

  /** Receive time of a classic frame; micros is documented as 0..999. */
  datatype TPCANTimestamp = TPCANTimestamp(millis: uint32, millisOverflow: uint16, micros: uint16)

  /** Total microseconds a timestamp stands for. */
  function TotalMicros(ts: TPCANTimestamp): (us: nat)
    ensures us < 0x1_0000_0000_0000_0000
    ensures ts.micros < 1000 ==> us / 1000 == ts.millis as int + 0x1_0000_0000 * ts.millisOverflow as int
  {
    ts.micros as int + 1000 * ts.millis as int + 0x1_0000_0000 * 1000 * ts.millisOverflow as int
  }

  /** The message-type bits: STANDARD is no bit, the other eight are distinct single bits 0x01..0x80. */
  lemma MessageTypeBits()
    ensures PCAN_MESSAGE_STANDARD == 0
    ensures var bits := [PCAN_MESSAGE_RTR, PCAN_MESSAGE_EXTENDED, PCAN_MESSAGE_FD, PCAN_MESSAGE_BRS,
                         PCAN_MESSAGE_ESI, PCAN_MESSAGE_ECHO, PCAN_MESSAGE_ERRFRAME, PCAN_MESSAGE_STATUS];
            forall i | 0 <= i < |bits| :: bits[i] == 1 << i
    ensures PCAN_MODE_STANDARD == PCAN_MESSAGE_STANDARD && PCAN_MODE_EXTENDED == PCAN_MESSAGE_EXTENDED
  {
  }

  /** The channel-condition values: PCANVIEW is AVAILABLE and OCCUPIED together. */
  lemma ChannelConditionValues()
    ensures PCAN_CHANNEL_PCANVIEW == 3 && PCAN_CHANNEL_UNAVAILABLE == 0
    ensures PCAN_CHANNEL_AVAILABLE & PCAN_CHANNEL_OCCUPIED == 0
  {
  }

  /** The handle-error mask equals ILLCLIENT, because ILLHW and ILLNET are subsets of it. */
  lemma HandleErrorMask()
    ensures PCAN_ERROR_ILLHANDLE == 0x1C00 == PCAN_ERROR_ILLCLIENT
    ensures PCAN_ERROR_ILLHW & PCAN_ERROR_ILLCLIENT == PCAN_ERROR_ILLHW
    ensures PCAN_ERROR_ILLNET & PCAN_ERROR_ILLCLIENT == PCAN_ERROR_ILLNET
  {
  }

  /** The bus-error mask, in which BUSWARNING adds nothing because it is BUSHEAVY. */
  lemma BusErrorMask()
    ensures PCAN_ERROR_ANYBUSERR == 0x4001C
    ensures PCAN_ERROR_BUSWARNING == PCAN_ERROR_BUSHEAVY
    ensures PCAN_ERROR_ANYBUSERR & PCAN_ERROR_QRCVEMPTY == 0
  {
  }
}
