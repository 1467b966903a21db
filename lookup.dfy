/**
 * The adapter's lookup tables: standard baud rates in bit/s against the
 * driver's baud-rate codes, and channel names against channel handles.
 * Each channel table is written as the union of its entries per adapter
 * family (the keys of different families are distinct, so the union is
 * the same map as one display of all entries).
 */
module Lookup {
  import opened GoInts
  import opened PcanTypes

  /** Standard baud rates (bit/s) and their driver codes. */
  const IntToBaudrate: map<uint32, TPCANBaudrate> :=
    map[
      1000000 := PCAN_BAUD_1M,
      800000 := PCAN_BAUD_800K,
      500000 := PCAN_BAUD_500K,
      250000 := PCAN_BAUD_250K,
      125000 := PCAN_BAUD_125K,
      100000 := PCAN_BAUD_100K,
      95000 := PCAN_BAUD_95K,
      83000 := PCAN_BAUD_83K,
      50000 := PCAN_BAUD_50K,
      47000 := PCAN_BAUD_47K,
      33000 := PCAN_BAUD_33K,
      20000 := PCAN_BAUD_20K,
      10000 := PCAN_BAUD_10K,
      5000 := PCAN_BAUD_5K
    ]

  /** Driver baud-rate codes and their rates in bit/s. */
  const BaudrateToInt: map<TPCANBaudrate, uint32> :=
    map[
      PCAN_BAUD_1M := 1000000,
      PCAN_BAUD_800K := 800000,
      PCAN_BAUD_500K := 500000,
      PCAN_BAUD_250K := 250000,
      PCAN_BAUD_125K := 125000,
      PCAN_BAUD_100K := 100000,
      PCAN_BAUD_95K := 95000,
      PCAN_BAUD_83K := 83000,
      PCAN_BAUD_50K := 50000,
      PCAN_BAUD_47K := 47000,
      PCAN_BAUD_33K := 33000,
      PCAN_BAUD_20K := 20000,
      PCAN_BAUD_10K := 10000,
      PCAN_BAUD_5K := 5000
    ]

  const NoneNamesToHandles: map<string, TPCANHandle> :=
    map[
      "PCAN_NONEBUS" := PCAN_NONEBUS
    ]

  const IsaNamesToHandles: map<string, TPCANHandle> :=
    map[
      "PCAN_ISABUS1" := PCAN_ISABUS1,
      "PCAN_ISABUS2" := PCAN_ISABUS2,
      "PCAN_ISABUS3" := PCAN_ISABUS3,
      "PCAN_ISABUS4" := PCAN_ISABUS4,
      "PCAN_ISABUS5" := PCAN_ISABUS5,
      "PCAN_ISABUS6" := PCAN_ISABUS6,
      "PCAN_ISABUS7" := PCAN_ISABUS7,
      "PCAN_ISABUS8" := PCAN_ISABUS8
    ]

  const DongleNamesToHandles: map<string, TPCANHandle> :=
    map[
      "PCAN_DNGBUS1" := PCAN_DNGBUS1
    ]

  const PciNamesToHandles: map<string, TPCANHandle> :=
    map[
      "PCAN_PCIBUS1" := PCAN_PCIBUS1,
      "PCAN_PCIBUS2" := PCAN_PCIBUS2,
      "PCAN_PCIBUS3" := PCAN_PCIBUS3,
      "PCAN_PCIBUS4" := PCAN_PCIBUS4,
      "PCAN_PCIBUS5" := PCAN_PCIBUS5,
      "PCAN_PCIBUS6" := PCAN_PCIBUS6,
      "PCAN_PCIBUS7" := PCAN_PCIBUS7,
      "PCAN_PCIBUS8" := PCAN_PCIBUS8,
      "PCAN_PCIBUS9" := PCAN_PCIBUS9,
      "PCAN_PCIBUS10" := PCAN_PCIBUS10,
      "PCAN_PCIBUS11" := PCAN_PCIBUS11,
      "PCAN_PCIBUS12" := PCAN_PCIBUS12,
      "PCAN_PCIBUS13" := PCAN_PCIBUS13,
      "PCAN_PCIBUS14" := PCAN_PCIBUS14,
      "PCAN_PCIBUS15" := PCAN_PCIBUS15,
      "PCAN_PCIBUS16" := PCAN_PCIBUS16
    ]

  const UsbNamesToHandles: map<string, TPCANHandle> :=
    map[
      "PCAN_USBBUS1" := PCAN_USBBUS1,
      "PCAN_USBBUS2" := PCAN_USBBUS2,
      "PCAN_USBBUS3" := PCAN_USBBUS3,
      "PCAN_USBBUS4" := PCAN_USBBUS4,
      "PCAN_USBBUS5" := PCAN_USBBUS5,
      "PCAN_USBBUS6" := PCAN_USBBUS6,
      "PCAN_USBBUS7" := PCAN_USBBUS7,
      "PCAN_USBBUS8" := PCAN_USBBUS8,
      "PCAN_USBBUS9" := PCAN_USBBUS9,
      "PCAN_USBBUS10" := PCAN_USBBUS10,
      "PCAN_USBBUS11" := PCAN_USBBUS11,
      "PCAN_USBBUS12" := PCAN_USBBUS12,
      "PCAN_USBBUS13" := PCAN_USBBUS13,
      "PCAN_USBBUS14" := PCAN_USBBUS14,
      "PCAN_USBBUS15" := PCAN_USBBUS15,
      "PCAN_USBBUS16" := PCAN_USBBUS16
    ]

  const PcCardNamesToHandles: map<string, TPCANHandle> :=
    map[
      "PCAN_PCCBUS1" := PCAN_PCCBUS1,
      "PCAN_PCCBUS2" := PCAN_PCCBUS2
    ]

  const LanNamesToHandles: map<string, TPCANHandle> :=
    map[
      "PCAN_LANBUS1" := PCAN_LANBUS1,
      "PCAN_LANBUS2" := PCAN_LANBUS2,
      "PCAN_LANBUS3" := PCAN_LANBUS3,
      "PCAN_LANBUS4" := PCAN_LANBUS4,
      "PCAN_LANBUS5" := PCAN_LANBUS5,
      "PCAN_LANBUS6" := PCAN_LANBUS6,
      "PCAN_LANBUS7" := PCAN_LANBUS7,
      "PCAN_LANBUS8" := PCAN_LANBUS8,
      "PCAN_LANBUS9" := PCAN_LANBUS9,
      "PCAN_LANBUS10" := PCAN_LANBUS10,
      "PCAN_LANBUS11" := PCAN_LANBUS11,
      "PCAN_LANBUS12" := PCAN_LANBUS12,
      "PCAN_LANBUS13" := PCAN_LANBUS13,
      "PCAN_LANBUS14" := PCAN_LANBUS14,
      "PCAN_LANBUS15" := PCAN_LANBUS15,
      "PCAN_LANBUS16" := PCAN_LANBUS16
    ]

  const NoneHandlesToNames: map<TPCANHandle, string> :=
    map[
      PCAN_NONEBUS := "PCAN_NONEBUS"
    ]

  const IsaHandlesToNames: map<TPCANHandle, string> :=
    map[
      PCAN_ISABUS1 := "PCAN_ISABUS1",
      PCAN_ISABUS2 := "PCAN_ISABUS2",
      PCAN_ISABUS3 := "PCAN_ISABUS3",
      PCAN_ISABUS4 := "PCAN_ISABUS4",
      PCAN_ISABUS5 := "PCAN_ISABUS5",
      PCAN_ISABUS6 := "PCAN_ISABUS6",
      PCAN_ISABUS7 := "PCAN_ISABUS7",
      PCAN_ISABUS8 := "PCAN_ISABUS8"
    ]

  const DongleHandlesToNames: map<TPCANHandle, string> :=
    map[
      PCAN_DNGBUS1 := "PCAN_DNGBUS1"
    ]

  const PciHandlesToNames: map<TPCANHandle, string> :=
    map[
      PCAN_PCIBUS1 := "PCAN_PCIBUS1",
      PCAN_PCIBUS2 := "PCAN_PCIBUS2",
      PCAN_PCIBUS3 := "PCAN_PCIBUS3",
      PCAN_PCIBUS4 := "PCAN_PCIBUS4",
      PCAN_PCIBUS5 := "PCAN_PCIBUS5",
      PCAN_PCIBUS6 := "PCAN_PCIBUS6",
      PCAN_PCIBUS7 := "PCAN_PCIBUS7",
      PCAN_PCIBUS8 := "PCAN_PCIBUS8",
      PCAN_PCIBUS9 := "PCAN_PCIBUS9",
      PCAN_PCIBUS10 := "PCAN_PCIBUS10",
      PCAN_PCIBUS11 := "PCAN_PCIBUS11",
      PCAN_PCIBUS12 := "PCAN_PCIBUS12",
      PCAN_PCIBUS13 := "PCAN_PCIBUS13",
      PCAN_PCIBUS14 := "PCAN_PCIBUS14",
      PCAN_PCIBUS15 := "PCAN_PCIBUS15",
      PCAN_PCIBUS16 := "PCAN_PCIBUS16"
    ]

  const UsbHandlesToNames: map<TPCANHandle, string> :=
    map[
      PCAN_USBBUS1 := "PCAN_USBBUS1",
      PCAN_USBBUS2 := "PCAN_USBBUS2",
      PCAN_USBBUS3 := "PCAN_USBBUS3",
      PCAN_USBBUS4 := "PCAN_USBBUS4",
      PCAN_USBBUS5 := "PCAN_USBBUS5",
      PCAN_USBBUS6 := "PCAN_USBBUS6",
      PCAN_USBBUS7 := "PCAN_USBBUS7",
      PCAN_USBBUS8 := "PCAN_USBBUS8",
      PCAN_USBBUS9 := "PCAN_USBBUS9",
      PCAN_USBBUS10 := "PCAN_USBBUS10",
      PCAN_USBBUS11 := "PCAN_USBBUS11",
      PCAN_USBBUS12 := "PCAN_USBBUS12",
      PCAN_USBBUS13 := "PCAN_USBBUS13",
      PCAN_USBBUS14 := "PCAN_USBBUS14",
      PCAN_USBBUS15 := "PCAN_USBBUS15",
      PCAN_USBBUS16 := "PCAN_USBBUS16"
    ]

  const PcCardHandlesToNames: map<TPCANHandle, string> :=
    map[
      PCAN_PCCBUS1 := "PCAN_PCCBUS1",
      PCAN_PCCBUS2 := "PCAN_PCCBUS2"
    ]

  const LanHandlesToNames: map<TPCANHandle, string> :=
    map[
      PCAN_LANBUS1 := "PCAN_LANBUS1",
      PCAN_LANBUS2 := "PCAN_LANBUS2",
      PCAN_LANBUS3 := "PCAN_LANBUS3",
      PCAN_LANBUS4 := "PCAN_LANBUS4",
      PCAN_LANBUS5 := "PCAN_LANBUS5",
      PCAN_LANBUS6 := "PCAN_LANBUS6",
      PCAN_LANBUS7 := "PCAN_LANBUS7",
      PCAN_LANBUS8 := "PCAN_LANBUS8",
      PCAN_LANBUS9 := "PCAN_LANBUS9",
      PCAN_LANBUS10 := "PCAN_LANBUS10",
      PCAN_LANBUS11 := "PCAN_LANBUS11",
      PCAN_LANBUS12 := "PCAN_LANBUS12",
      PCAN_LANBUS13 := "PCAN_LANBUS13",
      PCAN_LANBUS14 := "PCAN_LANBUS14",
      PCAN_LANBUS15 := "PCAN_LANBUS15",
      PCAN_LANBUS16 := "PCAN_LANBUS16"
    ]

  /** Channel names, as written in a configuration, and their handles. */
  const StringToChannel: map<string, TPCANHandle> :=
    NoneNamesToHandles + IsaNamesToHandles + DongleNamesToHandles + PciNamesToHandles
    + UsbNamesToHandles + PcCardNamesToHandles + LanNamesToHandles

  /** Channel handles and their names. */
  const ChannelToString: map<TPCANHandle, string> :=
    NoneHandlesToNames + IsaHandlesToNames + DongleHandlesToNames + PciHandlesToNames
    + UsbHandlesToNames + PcCardHandlesToNames + LanHandlesToNames

  /** Every standard rate has a code that maps back to it. */
  lemma RatesRoundTrip()
    ensures forall r | r in IntToBaudrate :: IntToBaudrate[r] in BaudrateToInt && BaudrateToInt[IntToBaudrate[r]] == r
  {
  }

  /** Every code has a rate that maps back to it. */
  lemma CodesRoundTrip()
    ensures forall b | b in BaudrateToInt :: BaudrateToInt[b] in IntToBaudrate && IntToBaudrate[BaudrateToInt[b]] == b
  {
  }

  // The channel round trips go family by family: each family's handles lie
  // in their own range and its names carry their own tag after "PCAN_", so no
  // later family of the union overrides its entries, and within a family the
  // two displays are inverse.

  lemma NoneRange()
    ensures forall h | h in NoneHandlesToNames :: h == 0
  {
  }

  lemma NoneTag()
    ensures forall s | s in NoneNamesToHandles :: |s| >= 8 && s[5..8] == "NON"
  {
  }

  lemma NoneHandlesDisjoint()
    ensures forall h | h in NoneHandlesToNames :: h !in IsaHandlesToNames && h !in DongleHandlesToNames && h !in PciHandlesToNames && h !in UsbHandlesToNames && h !in PcCardHandlesToNames && h !in LanHandlesToNames
  {
    NoneRange();
    IsaRange();
    DongleRange();
    PciRange();
    UsbRange();
    PcCardRange();
    LanRange();
  }

  lemma NoneNamesDisjoint()
    ensures forall s | s in NoneNamesToHandles :: s !in IsaNamesToHandles && s !in DongleNamesToHandles && s !in PciNamesToHandles && s !in UsbNamesToHandles && s !in PcCardNamesToHandles && s !in LanNamesToHandles
  {
    NoneTag();
    IsaTag();
    DongleTag();
    PciTag();
    UsbTag();
    PcCardTag();
    LanTag();
  }

  lemma NoneHandlesLift()
    ensures forall h | h in NoneHandlesToNames :: h in ChannelToString && ChannelToString[h] == NoneHandlesToNames[h]
  {
    NoneHandlesDisjoint();
  }

  lemma NoneNamesLift()
    ensures forall s | s in NoneNamesToHandles :: s in StringToChannel && StringToChannel[s] == NoneNamesToHandles[s]
  {
    NoneNamesDisjoint();
  }

  lemma IsaRange()
    ensures forall h | h in IsaHandlesToNames :: 0x21 <= h <= 0x28
  {
  }

  lemma IsaTag()
    ensures forall s | s in IsaNamesToHandles :: |s| >= 8 && s[5..8] == "ISA"
  {
  }

  lemma IsaHandlesDisjoint()
    ensures forall h | h in IsaHandlesToNames :: h !in DongleHandlesToNames && h !in PciHandlesToNames && h !in UsbHandlesToNames && h !in PcCardHandlesToNames && h !in LanHandlesToNames
  {
    IsaRange();
    DongleRange();
    PciRange();
    UsbRange();
    PcCardRange();
    LanRange();
  }

  lemma IsaNamesDisjoint()
    ensures forall s | s in IsaNamesToHandles :: s !in DongleNamesToHandles && s !in PciNamesToHandles && s !in UsbNamesToHandles && s !in PcCardNamesToHandles && s !in LanNamesToHandles
  {
    IsaTag();
    DongleTag();
    PciTag();
    UsbTag();
    PcCardTag();
    LanTag();
  }

  lemma IsaHandlesLift()
    ensures forall h | h in IsaHandlesToNames :: h in ChannelToString && ChannelToString[h] == IsaHandlesToNames[h]
  {
    IsaHandlesDisjoint();
  }

  lemma IsaNamesLift()
    ensures forall s | s in IsaNamesToHandles :: s in StringToChannel && StringToChannel[s] == IsaNamesToHandles[s]
  {
    IsaNamesDisjoint();
  }

  lemma DongleRange()
    ensures forall h | h in DongleHandlesToNames :: h == 0x31
  {
  }

  lemma DongleTag()
    ensures forall s | s in DongleNamesToHandles :: |s| >= 8 && s[5..8] == "DNG"
  {
  }

  lemma DongleHandlesDisjoint()
    ensures forall h | h in DongleHandlesToNames :: h !in PciHandlesToNames && h !in UsbHandlesToNames && h !in PcCardHandlesToNames && h !in LanHandlesToNames
  {
    DongleRange();
    PciRange();
    UsbRange();
    PcCardRange();
    LanRange();
  }

  lemma DongleNamesDisjoint()
    ensures forall s | s in DongleNamesToHandles :: s !in PciNamesToHandles && s !in UsbNamesToHandles && s !in PcCardNamesToHandles && s !in LanNamesToHandles
  {
    DongleTag();
    PciTag();
    UsbTag();
    PcCardTag();
    LanTag();
  }

  lemma DongleHandlesLift()
    ensures forall h | h in DongleHandlesToNames :: h in ChannelToString && ChannelToString[h] == DongleHandlesToNames[h]
  {
    DongleHandlesDisjoint();
  }

  lemma DongleNamesLift()
    ensures forall s | s in DongleNamesToHandles :: s in StringToChannel && StringToChannel[s] == DongleNamesToHandles[s]
  {
    DongleNamesDisjoint();
  }

  lemma PciRange()
    ensures forall h | h in PciHandlesToNames :: 0x41 <= h <= 0x50 || 0x409 <= h <= 0x410
  {
  }

  lemma PciTag()
    ensures forall s | s in PciNamesToHandles :: |s| >= 8 && s[5..8] == "PCI"
  {
  }

  lemma PciHandlesDisjoint()
    ensures forall h | h in PciHandlesToNames :: h !in UsbHandlesToNames && h !in PcCardHandlesToNames && h !in LanHandlesToNames
  {
    PciRange();
    UsbRange();
    PcCardRange();
    LanRange();
  }

  lemma PciNamesDisjoint()
    ensures forall s | s in PciNamesToHandles :: s !in UsbNamesToHandles && s !in PcCardNamesToHandles && s !in LanNamesToHandles
  {
    PciTag();
    UsbTag();
    PcCardTag();
    LanTag();
  }

  lemma PciHandlesLift()
    ensures forall h | h in PciHandlesToNames :: h in ChannelToString && ChannelToString[h] == PciHandlesToNames[h]
  {
    PciHandlesDisjoint();
  }

  lemma PciNamesLift()
    ensures forall s | s in PciNamesToHandles :: s in StringToChannel && StringToChannel[s] == PciNamesToHandles[s]
  {
    PciNamesDisjoint();
  }

  lemma UsbRange()
    ensures forall h | h in UsbHandlesToNames :: 0x51 <= h <= 0x58 || 0x509 <= h <= 0x510
  {
  }

  lemma UsbTag()
    ensures forall s | s in UsbNamesToHandles :: |s| >= 8 && s[5..8] == "USB"
  {
  }

  lemma UsbHandlesDisjoint()
    ensures forall h | h in UsbHandlesToNames :: h !in PcCardHandlesToNames && h !in LanHandlesToNames
  {
    UsbRange();
    PcCardRange();
    LanRange();
  }

  lemma UsbNamesDisjoint()
    ensures forall s | s in UsbNamesToHandles :: s !in PcCardNamesToHandles && s !in LanNamesToHandles
  {
    UsbTag();
    PcCardTag();
    LanTag();
  }

  lemma UsbHandlesLift()
    ensures forall h | h in UsbHandlesToNames :: h in ChannelToString && ChannelToString[h] == UsbHandlesToNames[h]
  {
    UsbHandlesDisjoint();
  }

  lemma UsbNamesLift()
    ensures forall s | s in UsbNamesToHandles :: s in StringToChannel && StringToChannel[s] == UsbNamesToHandles[s]
  {
    UsbNamesDisjoint();
  }

  lemma PcCardRange()
    ensures forall h | h in PcCardHandlesToNames :: 0x61 <= h <= 0x62
  {
  }

  lemma PcCardTag()
    ensures forall s | s in PcCardNamesToHandles :: |s| >= 8 && s[5..8] == "PCC"
  {
  }

  lemma PcCardHandlesDisjoint()
    ensures forall h | h in PcCardHandlesToNames :: h !in LanHandlesToNames
  {
    PcCardRange();
    LanRange();
  }

  lemma PcCardNamesDisjoint()
    ensures forall s | s in PcCardNamesToHandles :: s !in LanNamesToHandles
  {
    PcCardTag();
    LanTag();
  }

  lemma PcCardHandlesLift()
    ensures forall h | h in PcCardHandlesToNames :: h in ChannelToString && ChannelToString[h] == PcCardHandlesToNames[h]
  {
    PcCardHandlesDisjoint();
  }

  lemma PcCardNamesLift()
    ensures forall s | s in PcCardNamesToHandles :: s in StringToChannel && StringToChannel[s] == PcCardNamesToHandles[s]
  {
    PcCardNamesDisjoint();
  }

  lemma LanRange()
    ensures forall h | h in LanHandlesToNames :: 0x801 <= h <= 0x810
  {
  }

  lemma LanTag()
    ensures forall s | s in LanNamesToHandles :: |s| >= 8 && s[5..8] == "LAN"
  {
  }

  lemma LanHandlesLift()
    ensures forall h | h in LanHandlesToNames :: h in ChannelToString && ChannelToString[h] == LanHandlesToNames[h]
  {
  }

  lemma LanNamesLift()
    ensures forall s | s in LanNamesToHandles :: s in StringToChannel && StringToChannel[s] == LanNamesToHandles[s]
  {
  }

  lemma NoneNamesInverse()
    ensures forall s | s in NoneNamesToHandles :: NoneNamesToHandles[s] in NoneHandlesToNames && NoneHandlesToNames[NoneNamesToHandles[s]] == s
  {
  }

  lemma NoneHandlesInverse()
    ensures forall h | h in NoneHandlesToNames :: NoneHandlesToNames[h] in NoneNamesToHandles && NoneNamesToHandles[NoneHandlesToNames[h]] == h
  {
  }

  lemma IsaNamesInverse()
    ensures forall s | s in IsaNamesToHandles :: IsaNamesToHandles[s] in IsaHandlesToNames && IsaHandlesToNames[IsaNamesToHandles[s]] == s
  {
  }

  lemma IsaHandlesInverse()
    ensures forall h | h in IsaHandlesToNames :: IsaHandlesToNames[h] in IsaNamesToHandles && IsaNamesToHandles[IsaHandlesToNames[h]] == h
  {
  }

  lemma DongleNamesInverse()
    ensures forall s | s in DongleNamesToHandles :: DongleNamesToHandles[s] in DongleHandlesToNames && DongleHandlesToNames[DongleNamesToHandles[s]] == s
  {
  }

  lemma DongleHandlesInverse()
    ensures forall h | h in DongleHandlesToNames :: DongleHandlesToNames[h] in DongleNamesToHandles && DongleNamesToHandles[DongleHandlesToNames[h]] == h
  {
  }

  lemma PciNamesInverse()
    ensures forall s | s in PciNamesToHandles :: PciNamesToHandles[s] in PciHandlesToNames && PciHandlesToNames[PciNamesToHandles[s]] == s
  {
  }

  lemma PciHandlesInverse()
    ensures forall h | h in PciHandlesToNames :: PciHandlesToNames[h] in PciNamesToHandles && PciNamesToHandles[PciHandlesToNames[h]] == h
  {
  }

  lemma UsbNamesInverse()
    ensures forall s | s in UsbNamesToHandles :: UsbNamesToHandles[s] in UsbHandlesToNames && UsbHandlesToNames[UsbNamesToHandles[s]] == s
  {
  }

  lemma UsbHandlesInverse()
    ensures forall h | h in UsbHandlesToNames :: UsbHandlesToNames[h] in UsbNamesToHandles && UsbNamesToHandles[UsbHandlesToNames[h]] == h
  {
  }

  lemma PcCardNamesInverse()
    ensures forall s | s in PcCardNamesToHandles :: PcCardNamesToHandles[s] in PcCardHandlesToNames && PcCardHandlesToNames[PcCardNamesToHandles[s]] == s
  {
  }

  lemma PcCardHandlesInverse()
    ensures forall h | h in PcCardHandlesToNames :: PcCardHandlesToNames[h] in PcCardNamesToHandles && PcCardNamesToHandles[PcCardHandlesToNames[h]] == h
  {
  }

  lemma LanNamesInverse()
    ensures forall s | s in LanNamesToHandles :: LanNamesToHandles[s] in LanHandlesToNames && LanHandlesToNames[LanNamesToHandles[s]] == s
  {
  }

  lemma LanHandlesInverse()
    ensures forall h | h in LanHandlesToNames :: LanHandlesToNames[h] in LanNamesToHandles && LanNamesToHandles[LanHandlesToNames[h]] == h
  {
  }

  lemma NoneHandleRoundTrip(h: TPCANHandle)
    requires h in NoneHandlesToNames
    ensures h in ChannelToString && ChannelToString[h] in StringToChannel && StringToChannel[ChannelToString[h]] == h
  {
    NoneHandlesLift();
    NoneHandlesInverse();
    NoneNamesLift();
  }

  lemma NoneNameRoundTrip(s: string)
    requires s in NoneNamesToHandles
    ensures s in StringToChannel && StringToChannel[s] in ChannelToString && ChannelToString[StringToChannel[s]] == s
  {
    NoneNamesLift();
    NoneNamesInverse();
    NoneHandlesLift();
  }

  lemma IsaHandleRoundTrip(h: TPCANHandle)
    requires h in IsaHandlesToNames
    ensures h in ChannelToString && ChannelToString[h] in StringToChannel && StringToChannel[ChannelToString[h]] == h
  {
    IsaHandlesLift();
    IsaHandlesInverse();
    IsaNamesLift();
  }

  lemma IsaNameRoundTrip(s: string)
    requires s in IsaNamesToHandles
    ensures s in StringToChannel && StringToChannel[s] in ChannelToString && ChannelToString[StringToChannel[s]] == s
  {
    IsaNamesLift();
    IsaNamesInverse();
    IsaHandlesLift();
  }

  lemma DongleHandleRoundTrip(h: TPCANHandle)
    requires h in DongleHandlesToNames
    ensures h in ChannelToString && ChannelToString[h] in StringToChannel && StringToChannel[ChannelToString[h]] == h
  {
    DongleHandlesLift();
    DongleHandlesInverse();
    DongleNamesLift();
  }

  lemma DongleNameRoundTrip(s: string)
    requires s in DongleNamesToHandles
    ensures s in StringToChannel && StringToChannel[s] in ChannelToString && ChannelToString[StringToChannel[s]] == s
  {
    DongleNamesLift();
    DongleNamesInverse();
    DongleHandlesLift();
  }

  lemma PciHandleRoundTrip(h: TPCANHandle)
    requires h in PciHandlesToNames
    ensures h in ChannelToString && ChannelToString[h] in StringToChannel && StringToChannel[ChannelToString[h]] == h
  {
    PciHandlesLift();
    PciHandlesInverse();
    PciNamesLift();
  }

  lemma PciNameRoundTrip(s: string)
    requires s in PciNamesToHandles
    ensures s in StringToChannel && StringToChannel[s] in ChannelToString && ChannelToString[StringToChannel[s]] == s
  {
    PciNamesLift();
    PciNamesInverse();
    PciHandlesLift();
  }

  lemma UsbHandleRoundTrip(h: TPCANHandle)
    requires h in UsbHandlesToNames
    ensures h in ChannelToString && ChannelToString[h] in StringToChannel && StringToChannel[ChannelToString[h]] == h
  {
    UsbHandlesLift();
    UsbHandlesInverse();
    UsbNamesLift();
  }

  lemma UsbNameRoundTrip(s: string)
    requires s in UsbNamesToHandles
    ensures s in StringToChannel && StringToChannel[s] in ChannelToString && ChannelToString[StringToChannel[s]] == s
  {
    UsbNamesLift();
    UsbNamesInverse();
    UsbHandlesLift();
  }

  lemma PcCardHandleRoundTrip(h: TPCANHandle)
    requires h in PcCardHandlesToNames
    ensures h in ChannelToString && ChannelToString[h] in StringToChannel && StringToChannel[ChannelToString[h]] == h
  {
    PcCardHandlesLift();
    PcCardHandlesInverse();
    PcCardNamesLift();
  }

  lemma PcCardNameRoundTrip(s: string)
    requires s in PcCardNamesToHandles
    ensures s in StringToChannel && StringToChannel[s] in ChannelToString && ChannelToString[StringToChannel[s]] == s
  {
    PcCardNamesLift();
    PcCardNamesInverse();
    PcCardHandlesLift();
  }

  lemma LanHandleRoundTrip(h: TPCANHandle)
    requires h in LanHandlesToNames
    ensures h in ChannelToString && ChannelToString[h] in StringToChannel && StringToChannel[ChannelToString[h]] == h
  {
    LanHandlesLift();
    LanHandlesInverse();
    LanNamesLift();
  }

  lemma LanNameRoundTrip(s: string)
    requires s in LanNamesToHandles
    ensures s in StringToChannel && StringToChannel[s] in ChannelToString && ChannelToString[StringToChannel[s]] == s
  {
    LanNamesLift();
    LanNamesInverse();
    LanHandlesLift();
  }

  /** A handle of the channel table has a name that maps back to it. */
  lemma HandleRoundTrip(h: TPCANHandle)
    requires h in ChannelToString
    ensures ChannelToString[h] in StringToChannel && StringToChannel[ChannelToString[h]] == h
  {
    if h in LanHandlesToNames {
      LanHandleRoundTrip(h);
    } else if h in PcCardHandlesToNames {
      PcCardHandleRoundTrip(h);
    } else if h in UsbHandlesToNames {
      UsbHandleRoundTrip(h);
    } else {
      EarlyHandleRoundTrip(h);
    }
  }

  /** HandleRoundTrip for the handles of the first four families. */
  lemma EarlyHandleRoundTrip(h: TPCANHandle)
    requires h in NoneHandlesToNames + IsaHandlesToNames + DongleHandlesToNames + PciHandlesToNames
    ensures h in ChannelToString && ChannelToString[h] in StringToChannel && StringToChannel[ChannelToString[h]] == h
  {
    if h in PciHandlesToNames {
      PciHandleRoundTrip(h);
    } else if h in DongleHandlesToNames {
      DongleHandleRoundTrip(h);
    } else if h in IsaHandlesToNames {
      IsaHandleRoundTrip(h);
    } else {
      NoneHandleRoundTrip(h);
    }
  }

  /** A name of the channel table has a handle whose name it is. */
  lemma NameRoundTrip(s: string)
    requires s in StringToChannel
    ensures StringToChannel[s] in ChannelToString && ChannelToString[StringToChannel[s]] == s
  {
    if s in LanNamesToHandles {
      LanNameRoundTrip(s);
    } else if s in PcCardNamesToHandles {
      PcCardNameRoundTrip(s);
    } else if s in UsbNamesToHandles {
      UsbNameRoundTrip(s);
    } else {
      EarlyNameRoundTrip(s);
    }
  }

  /** NameRoundTrip for the names of the first four families. */
  lemma EarlyNameRoundTrip(s: string)
    requires s in NoneNamesToHandles + IsaNamesToHandles + DongleNamesToHandles + PciNamesToHandles
    ensures s in StringToChannel && StringToChannel[s] in ChannelToString && ChannelToString[StringToChannel[s]] == s
  {
    if s in PciNamesToHandles {
      PciNameRoundTrip(s);
    } else if s in DongleNamesToHandles {
      DongleNameRoundTrip(s);
    } else if s in IsaNamesToHandles {
      IsaNameRoundTrip(s);
    } else {
      NoneNameRoundTrip(s);
    }
  }
}
