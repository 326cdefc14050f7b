/**
 * The fixed HVSP command sequences the programmer issues, the constants they
 * use, and how the bytes they read back are interpreted.
 */
module Commands {
  import opened Options
  import opened Frames
  import opened Trace

  /** Command bytes clocked out on SDI after a load-command instruction. */
  const ChipErase: bv8 := 0x80
  const WriteFuseBits: bv8 := 0x40
  const ReadFuseAndLock: bv8 := 0x04
  const ReadSignatureBytes: bv8 := 0x08
  const NoData: bv8 := 0x00

  /** Instruction bytes clocked out on SII. */
  const LoadCommand: bv8 := 0x4C
  const LoadAddressLow: bv8 := 0x0C
  const LoadDataLow: bv8 := 0x2C
  const EraseStrobe: bv8 := 0x64
  /** Read strobe of a low byte: the low fuse, or the signature byte whose index was loaded. */
  const LowReadStrobe: bv8 := 0x68
  /** Ends a low-byte strobe: the last transfer of a low fuse read, a signature byte read and the chip erase. */
  const LowStrobeEnd: bv8 := 0x6C
  const ReadHighFuse: bv8 := 0x7A
  const ReadHighFuseEnd: bv8 := 0x7E
  const ReadExtendedFuse: bv8 := 0x6A
  const ReadExtendedFuseEnd: bv8 := 0x6E
  const ReadLock: bv8 := 0x78
  const ReadLockEnd: bv8 := 0x7C

  /** Fuse selectors: high byte and low byte are the SII bytes of the last two write transfers. */
  const HFUSE: bv16 := 0x747C
  const LFUSE: bv16 := 0x646C
  const EFUSE: bv16 := 0x666E

  /** Device signatures of the supported ATtiny parts. */
  const ATTINY13: bv16 := 0x9007
  const ATTINY24: bv16 := 0x910B
  const ATTINY25: bv16 := 0x9108
  const ATTINY44: bv16 := 0x9207
  const ATTINY45: bv16 := 0x9206
  const ATTINY84: bv16 := 0x930C
  const ATTINY85: bv16 := 0x930B

  /** The high byte of a 16-bit word. */
  function HighByte(w: bv16): bv8
  {
    (w >> 8) as bv8
  }

  /** The low byte of a 16-bit word, as a cast to an 8-bit type keeps it. */
  function LowByte(w: bv16): bv8
  {
    (w & 0xFF) as bv8
  }

  /** The 16-bit word with the given high and low bytes, which is hi * 256 + lo in 16-bit arithmetic. */
  function Join(hi: bv8, lo: bv8): (w: bv16)
    ensures HighByte(w) == hi && LowByte(w) == lo
    ensures w == (hi as bv16) * 256 + lo as bv16
  {
    ((hi as bv16) << 8) | (lo as bv16)
  }

  /** Splitting a word into its bytes and joining them again gives the word back. */
  lemma JoinSplit(w: bv16)
    ensures Join(HighByte(w), LowByte(w)) == w
  {
  }

  /** One round of the signature read: select signature mode, give the byte index, then two read strobes. */
  function SignatureRound(index: bv8): seq<Txn>
  {
    [Txn(ReadSignatureBytes, LoadCommand), Txn(index, LoadAddressLow), Txn(NoData, LowReadStrobe), Txn(NoData, LowStrobeEnd)]
  }

  /** The rounds for signature byte indexes 1 to n. */
  function SignatureRounds(n: nat): (ts: seq<Txn>)
    requires n <= 2
    ensures |ts| == 4 * n
  {
    if n == 0 then [] else SignatureRounds(n - 1) + SignatureRound(n as bv8)
  }

  /** The whole signature read: byte 1, then byte 2 (byte 0 is never read). */
  function SignatureTxns(): seq<Txn>
  {
    SignatureRounds(2)
  }

  /** The signature read is eight transfers, index 1 then index 2, and never index 0. */
  lemma SignatureTxnsShape()
    ensures SignatureTxns() == SignatureRound(1) + SignatureRound(2)
    ensures |SignatureTxns()| == 8
    ensures forall k :: 0 <= k < |SignatureTxns()| && SignatureTxns()[k].address == LoadAddressLow ==>
      SignatureTxns()[k].value != 0
  {
    assert SignatureRounds(1) == SignatureRound(1);
  }

  /** One step of the signature accumulator: shift left by 8 and add the byte, in 16-bit arithmetic. */
  function ShiftAdd(acc: bv16, b: bv8): bv16
  {
    (acc << 8) + (b as bv16)
  }

  /**
   * The 16-bit accumulator after n signature rounds starting at sample t0,
   * as the programmer computes it: shift left by 8 and add the byte read by
   * the fourth transfer of the round, in 16-bit arithmetic.
   */
  function SignatureFold(line: nat -> bool, t0: nat, n: nat): bv16
    requires n <= 2
  {
    if n == 0 then 0
    else ShiftAdd(SignatureFold(line, t0, n - 1), ResponseAt(line, t0 + 44 * (n - 1) + 33))
  }

  /** The signature read from sample t0 on: byte 1 is the high byte, byte 2 the low byte. */
  function SignatureAt(line: nat -> bool, t0: nat): bv16
  {
    Join(ResponseAt(line, t0 + 33), ResponseAt(line, t0 + 77))
  }

  /** Two rounds of shift-and-add from zero put the first byte high and the second low. */
  lemma ShiftAddTwice(b1: bv8, b2: bv8)
    ensures ShiftAdd(ShiftAdd(0, b1), b2) == Join(b1, b2)
  {
  }

  /** The programmer's 16-bit shift-and-add over the two bytes yields the big-endian signature: byte 1 high, byte 2 low. */
  lemma SignatureFoldIsBigEndian(line: nat -> bool, t0: nat)
    ensures SignatureFold(line, t0, 2) == SignatureAt(line, t0)
  {
    var b1, b2 := ResponseAt(line, t0 + 33), ResponseAt(line, t0 + 77);
    assert SignatureFold(line, t0, 1) == ShiftAdd(0, b1);
    ShiftAddTwice(b1, b2);
  }

  /** Read one fuse or lock byte: mode select, then the byte's two read strobes. */
  function ReadByteTxns(strobe: bv8, strobeEnd: bv8): seq<Txn>
  {
    [Txn(ReadFuseAndLock, LoadCommand), Txn(NoData, strobe), Txn(NoData, strobeEnd)]
  }

  /** Read the low, high and extended fuse, in that order. */
  function ReadFuseTxns(): seq<Txn>
  {
    ReadByteTxns(LowReadStrobe, LowStrobeEnd)
    + ReadByteTxns(ReadHighFuse, ReadHighFuseEnd)
    + ReadByteTxns(ReadExtendedFuse, ReadExtendedFuseEnd)
  }

  /** The three fuse bytes of a device. */
  datatype FuseBytes = FuseBytes(low: bv8, high: bv8, extended: bv8)

  /** The fuses a fuse read starting at sample t0 reports: each is the response to the third transfer of its group. */
  function FusesAt(line: nat -> bool, t0: nat): FuseBytes
  {
    FuseBytes(ResponseAt(line, t0 + 2 * FrameLength),
              ResponseAt(line, t0 + 5 * FrameLength),
              ResponseAt(line, t0 + 8 * FrameLength))
  }

  /** Read the lock byte: mode select, address strobe, read strobe. */
  function ReadLockTxns(): seq<Txn>
  {
    ReadByteTxns(ReadLock, ReadLockEnd)
  }

  /** The lock byte a lock read starting at sample t0 reports: the response to its third transfer. */
  function LockAt(line: nat -> bool, t0: nat): bv8
  {
    ResponseAt(line, t0 + 2 * FrameLength)
  }

  /** State of the two lock bits; a lock bit reads 0 when it is programmed. */
  datatype LockBits = LockBits(lb1Programmed: bool, lb2Programmed: bool)

  /** Decode bits 0 (LB1) and 1 (LB2) of the lock byte. */
  function DecodeLock(lock: bv8): (bits: LockBits)
    ensures bits.lb1Programmed <==> lock % 2 == 0
    ensures bits.lb2Programmed <==> lock / 2 % 2 == 0
  {
    LockBits(lock & 0x01 == 0, lock & 0x02 == 0)
  }

  /** Only the two low bits of the lock byte matter, and the logic is inverted. */
  lemma DecodeLockLowBits(lock: bv8)
    ensures DecodeLock(lock) == DecodeLock(lock & 0x03)
    ensures DecodeLock(0x03) == LockBits(false, false)
    ensures DecodeLock(0x00) == LockBits(true, true)
    ensures DecodeLock(0x01) == LockBits(false, true)
    ensures DecodeLock(0x02) == LockBits(true, false)
  {
  }

  /** Erase flash and lock bits: chip-erase mode select and two strobes. */
  function EraseTxns(): seq<Txn>
  {
    [Txn(ChipErase, LoadCommand), Txn(NoData, EraseStrobe), Txn(NoData, LowStrobeEnd)]
  }

  /** A fuse byte to write to the fuse a selector names. */
  datatype FuseWrite = FuseWrite(address: bv16, value: bv8)

  /** Write a fuse: write mode select, the value, then the selector's high and low byte. */
  function WriteFuseTxns(w: FuseWrite): (ts: seq<Txn>)
  {
    [Txn(WriteFuseBits, LoadCommand), Txn(w.value, LoadDataLow), Txn(NoData, HighByte(w.address)), Txn(NoData, LowByte(w.address))]
  }

  /**
   * The fuse write a device recognises in four transfers: a write mode
   * select, the value on SDI, and the selector on SII over two transfers.
   */
  function DecodeFuseWrite(ts: seq<Txn>): Option<FuseWrite>
  {
    if |ts| == 4 && ts[0] == Txn(WriteFuseBits, LoadCommand) && ts[1].address == LoadDataLow
       && ts[2].value == NoData && ts[3].value == NoData
    then Some(FuseWrite(Join(ts[2].address, ts[3].address), ts[1].value))
    else None
  }

  /** The four write transfers carry the selector and the value, and nothing else. */
  lemma WriteFuseRoundTrip(w: FuseWrite)
    ensures DecodeFuseWrite(WriteFuseTxns(w)) == Some(w)
    ensures WriteFuseTxns(FuseWrite(LFUSE, 0x62))[2..] == [Txn(0x00, 0x64), Txn(0x00, 0x6C)]
  {
    JoinSplit(w.address);
  }
}
