/**
 * Data-length codes of CAN and CAN FD frames: codes 0..8 stand for
 * themselves, codes 9..15 for 12, 16, 20, 24, 32, 48 and 64 bytes
 * (the DLC table of ISO 11898-1:2015).
 */
module Dlc {
  import opened GoInts
  import opened PcanTypes

  /** Data length of every DLC code, indexed by code. */
  const CAN_FD_DLC: seq<uint8> := [0, 1, 2, 3, 4, 5, 6, 7, 8, 12, 16, 20, 24, 32, 48, 64]

  /** Byte length a DLC code stands for; every code from 15 up counts as 64. */
  function LengthFromDLC(dlc: uint8): (n: nat)
    ensures n == CAN_FD_DLC[if dlc < 15 then dlc as int else 15] as int
    ensures n <= LENGTH_DATA_CANFD_MESSAGE
  {
    if dlc <= 8 then dlc as nat
    else if dlc >= 15 then LENGTH_DATA_CANFD_MESSAGE
    else if dlc == 9 then 12
    else if dlc == 10 then 16
    else if dlc == 11 then 20
    else if dlc == 12 then 24
    else if dlc == 13 then 32
    else if dlc == 14 then 48
    else dlc as nat
  }

  /** The table lists each length once, in increasing order. */
  lemma TableIncreasing()
    ensures |CAN_FD_DLC| == 16
    ensures forall i, j | 0 <= i < j < 16 :: CAN_FD_DLC[i] < CAN_FD_DLC[j]
    ensures forall i | 0 <= i <= 8 :: CAN_FD_DLC[i] as int == i
  {
  }

  /**
   * The first code from `from` on whose length reaches `target`, or 15 when
   * no code does: the search loop over the table.
   */
  function FirstCodeAtLeast(target: uint8, from: nat): (d: nat)
    requires from <= 16
    ensures d <= 15
    ensures || (from <= d && CAN_FD_DLC[d] >= target && forall j | from <= j < d :: CAN_FD_DLC[j] < target)
            || (d == 15 && forall j | from <= j < 16 :: CAN_FD_DLC[j] < target)
    decreases 16 - from
  {
    if from == 16 then 15
    else if CAN_FD_DLC[from] >= target then from
    else FirstCodeAtLeast(target, from + 1)
  }

  /**
   * The DLC code for a payload of `length` bytes: the length itself up to 8,
   * otherwise the first code whose length reaches uint8(length), or 15.
   * The conversion to uint8 keeps only the low 8 bits of the length.
   * DLCRoundTrip, DLCCovers, DLCMinimal, DLCSaturates and DLCWrapsModulo256
   * state what the code means; GetDLCFromLength computes it by a loop.
   */
  function DLCFromLength(length: nat): (d: uint8)
    ensures d <= 15
  {
    if length <= 8 then length as uint8
    else FirstCodeAtLeast(TruncU8(length), 0) as uint8
  }

  /** The search as the source writes it: a loop over the table. */
  method GetDLCFromLength(length: nat) returns (dlc: uint8)
    ensures dlc == DLCFromLength(length)
  {
    if length <= 8 {
      return length as uint8;
    }
    var target := TruncU8(length);
    var i := 0;
    while i < |CAN_FD_DLC|
      invariant 0 <= i <= |CAN_FD_DLC|
      invariant FirstCodeAtLeast(target, i) == FirstCodeAtLeast(target, 0)
    {
      if CAN_FD_DLC[i] >= target {
        return i as uint8;
      }
      i := i + 1;
    }
    return 15;
  }

  /** Every code 0..15 is the code of its own length. */
  lemma DLCRoundTrip(d: uint8)
    requires d <= 15
    ensures DLCFromLength(LengthFromDLC(d)) == d
  {
    TableIncreasing();
    if d > 8 {
      var n := LengthFromDLC(d);
      assert TruncU8(n) == CAN_FD_DLC[d];
    }
  }

  /** Up to 64 bytes, the chosen code holds at least the payload. */
  lemma DLCCovers(n: nat)
    requires n <= LENGTH_DATA_CANFD_MESSAGE
    ensures LengthFromDLC(DLCFromLength(n)) >= n
  {
    if n > 8 {
      assert TruncU8(n) as int == n;
      assert CAN_FD_DLC[15] >= TruncU8(n);
    }
  }

  /** Above 8 bytes, no smaller code holds the payload. */
  lemma DLCMinimal(n: nat, d: uint8)
    requires 8 < n <= LENGTH_DATA_CANFD_MESSAGE
    requires d < DLCFromLength(n)
    ensures LengthFromDLC(d) < n
  {
    assert TruncU8(n) as int == n;
    assert CAN_FD_DLC[15] >= TruncU8(n);
  }

  /** Lengths 65..255 saturate to code 15. */
  lemma DLCSaturates(n: nat)
    requires LENGTH_DATA_CANFD_MESSAGE < n < 0x100
    ensures DLCFromLength(n) == 15
  {
    assert TruncU8(n) as int == n;
    TableIncreasing();
  }

  /**
   * Above 8, only the low 8 bits of the length count: a 256-byte payload
   * gets code 0 and a 264-byte one code 8.
   */
  lemma DLCWrapsModulo256(n: nat)
    requires n > 8
    ensures DLCFromLength(n) == DLCFromLength(n % 0x100)
    ensures n % 0x100 <= 8 ==> DLCFromLength(n) as int == n % 0x100
  {
    var t := TruncU8(n);
    assert t as int == n % 0x100;
    if n % 0x100 <= 8 {
      TableIncreasing();
      assert CAN_FD_DLC[t] == t;
    } else {
      assert TruncU8(n % 0x100) == t;
    }
  }

  /** Longer payloads never get smaller codes, up to 255 bytes. */
  lemma DLCMonotonic(n: nat, m: nat)
    requires n <= m < 0x100
    ensures DLCFromLength(n) <= DLCFromLength(m)
  {
    TableIncreasing();
    if m > 8 {
      assert TruncU8(m) as int == m;
      if n > 8 {
        assert TruncU8(n) as int == n;
      }
    }
  }

  /** Larger codes never stand for fewer bytes. */
  lemma LengthMonotonic(d: uint8, e: uint8)
    requires d <= e
    ensures LengthFromDLC(d) <= LengthFromDLC(e)
  {
    TableIncreasing();
  }
}
