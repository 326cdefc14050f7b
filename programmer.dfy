/**
 * The programmer itself: the pins it drives, the SDO line it samples, and
 * the routines that run a High-Voltage Serial Programming session on an
 * ATtiny.
 */
module Programmer {
  import opened Frames
  import opened Trace
  import opened Commands
  import opened Session

  /** The pin activity of three transfers is theirs one after the other. */
  lemma TxnsTraceThree(a: Txn, b: Txn, c: Txn)
    ensures TxnsTrace([a, b, c]) == CycleTrace(a) + CycleTrace(b) + CycleTrace(c)
  {
    TxnsTraceSnoc([], a);
    assert [] + [a] == [a];
    AppendEmpty(CycleTrace(a));
    TxnsTraceSnoc([a], b);
    assert [a] + [b] == [a, b];
    TxnsTraceSnoc([a, b], c);
    assert [a, b] + [c] == [a, b, c];
  }

  /** Three transfers in a row make the pin activity of the three as one run. */
  lemma ThreeTxns(before: seq<Event>, a: Txn, b: Txn, c: Txn)
    ensures before + CycleTrace(a) + CycleTrace(b) + CycleTrace(c) == before + TxnsTrace([a, b, c])
  {
    TxnsTraceThree(a, b, c);
    AppendAssoc(before, CycleTrace(a), CycleTrace(b));
    AppendAssoc(before, CycleTrace(a) + CycleTrace(b), CycleTrace(c));
  }

  /** Three runs of transfers in a row make the pin activity of the three as one run. */
  lemma ThreeRuns(before: seq<Event>, a: seq<Txn>, b: seq<Txn>, c: seq<Txn>)
    ensures before + TxnsTrace(a) + TxnsTrace(b) + TxnsTrace(c) == before + TxnsTrace(a + b + c)
  {
    TxnsTraceAppend(a, b);
    TxnsTraceAppend(a + b, c);
    AppendAssoc(before, TxnsTrace(a), TxnsTrace(b));
    AppendAssoc(before, TxnsTrace(a + b), TxnsTrace(c));
  }

  /** Four transfers in a row make the pin activity of the four as one run. */
  lemma FourTxns(before: seq<Event>, a: Txn, b: Txn, c: Txn, d: Txn)
    ensures before + CycleTrace(a) + CycleTrace(b) + CycleTrace(c) + CycleTrace(d) == before + TxnsTrace([a, b, c, d])
  {
    ThreeTxns(before, a, b, c);
    assert [a, b, c, d][..3] == [a, b, c];
    AppendAssoc(before, TxnsTrace([a, b, c]), CycleTrace(d));
  }

  /** The events of one more clock cycle extend a run of cycles by one. */
  lemma CycleStep(trace0: seq<Event>, sdi: seq<bool>, sii: seq<bool>, k: nat, before: seq<Event>, after: seq<Event>)
    requires k < |sdi| && k < |sii|
    requires before == trace0 + Cycles(sdi, sii, k)
    requires after == before + [Drive(SDI, sdi[k])] + [Drive(SII, sii[k])] + [Sample] + [Drive(SCI, true)] + [Drive(SCI, false)]
    ensures after == trace0 + Cycles(sdi, sii, k + 1)
  {
    assert after == before + BitCycle(sdi[k], sii[k]);
  }

  /**
   * The pin activity `events` and the sample position `sampled` are those
   * reached by running the operations `ops` from the events `base` and the
   * sample position `t`.
   */
  ghost predicate Ran(base: seq<Event>, t: nat, ops: seq<Op>, events: seq<Event>, sampled: nat)
  {
    && events == base + TxnsTrace(PlanTxns(ops))
    && sampled == t + 11 * |PlanTxns(ops)|
  }

  /** Running no operation changes nothing. */
  lemma RanNothing(base: seq<Event>, t: nat)
    ensures Ran(base, t, [], base, t)
  {
    assert base + [] == base;
  }

  /** Running one more operation from where a run of operations stopped adds its transfers to the pin activity. */
  lemma RanOp(base: seq<Event>, t: nat, ops: seq<Op>, events: seq<Event>, sampled: nat,
              op: Op, events': seq<Event>, sampled': nat)
    requires Ran(base, t, ops, events, sampled)
    requires events' == events + TxnsTrace(OpTxns(op))
    requires sampled' == sampled + 11 * |OpTxns(op)|
    ensures Ran(base, t, ops + [op], events', sampled')
  {
    PlanSnoc(ops, op);
    TxnsTraceAppend(PlanTxns(ops), OpTxns(op));
    AppendAssoc(base, TxnsTrace(PlanTxns(ops)), TxnsTrace(OpTxns(op)));
  }

  /** Running operation k of a plan, from where its first k operations stopped, runs its first k + 1. */
  lemma RanStep(base: seq<Event>, t: nat, plan: seq<Op>, k: nat, events: seq<Event>, sampled: nat,
                events': seq<Event>, sampled': nat)
    requires k < |plan|
    requires Ran(base, t, plan[..k], events, sampled)
    requires events' == events + TxnsTrace(OpTxns(plan[k]))
    requires sampled' == sampled + 11 * |OpTxns(plan[k])|
    ensures Ran(base, t, plan[..k + 1], events', sampled')
  {
    RanOp(base, t, plan[..k], events, sampled, plan[k], events', sampled');
    assert plan[..k] + [plan[k]] == plan[..k + 1];
  }

  /** Two runs of operations, the second starting where the first stopped, are one run. */
  lemma RanAppend(base: seq<Event>, t: nat, a: seq<Op>, mid: seq<Event>, middle: nat,
                  b: seq<Op>, events: seq<Event>, sampled: nat)
    requires Ran(base, t, a, mid, middle)
    requires Ran(mid, middle, b, events, sampled)
    ensures Ran(base, t, a + b, events, sampled)
  {
    PlanAppend(a, b);
    TxnsTraceAppend(PlanTxns(a), PlanTxns(b));
    AppendAssoc(base, TxnsTrace(PlanTxns(a)), TxnsTrace(PlanTxns(b)));
  }

  /** The signature read, the operations, then the power-down make up the pin activity of the session. */
  lemma SessionTraceOf(trace0: seq<Event>, e0: seq<Event>, events: seq<Event>, mode: char, signature: bv16)
    requires e0 == trace0 + TxnsTrace(SignatureTxns())
    requires events == e0 + TxnsTrace(PlanTxns(SessionOps(mode, signature)))
    ensures events + PowerDownEvents() == trace0 + SessionTrace(mode, signature)
  {
    var ops := PlanTxns(SessionOps(mode, signature));
    TxnsTraceAppend(SignatureTxns(), ops);
    AppendAssoc(trace0, TxnsTrace(SignatureTxns()), TxnsTrace(ops));
  }

  /**
   * The Arduino wired to the target. The target is seen only through the
   * levels it shows on SDO: sdo(k) is the level at the k-th sample the
   * programmer takes. Every pin write and every sample is recorded in trace.
   */
  class HvProgrammer {
    const sdo: nat -> bool
    var sampled: nat
    var trace: seq<Event>

    constructor (sdo: nat -> bool)
      ensures this.sdo == sdo
      ensures sampled == 0 && trace == []
    {
      this.sdo := sdo;
      sampled := 0;
      trace := [];
    }

    /**
     * One 11-bit transfer: the value and the address, each widened to 16
     * bits and shifted left by two, are clocked out on SDI and SII from bit
     * 10 down to bit 0 while SDO is shifted into a 16-bit accumulator; the
     * byte returned is the accumulator shifted right by two and cut to 8
     * bits.
     */
    method ShiftOut(value: bv8, address: bv8) returns (response: bv8)
      modifies this
      ensures response == ResponseAt(sdo, old(sampled))
      ensures trace == old(trace) + CycleTrace(Txn(value, address))
      ensures sampled == old(sampled) + FrameLength
    {
      var sdiOut := Frame(value);
      var siiOut := Frame(address);
      response := ClockFrame(sdiOut, siiOut);
      CycleTraceIsCycles(Txn(value, address));
    }

    /**
     * The clock loop of a transfer, for i from 10 down to 0: drive SDI and
     * SII with the levels of bit i, shift the SDO level into the low bit of
     * the accumulator, then pulse the clock high and low.
     */
    method ClockFrame(sdiOut: seq<bool>, siiOut: seq<bool>) returns (response: bv8)
      requires |sdiOut| == FrameLength && |siiOut| == FrameLength
      modifies this
      ensures response == ResponseAt(sdo, old(sampled))
      ensures trace == old(trace) + Cycles(sdiOut, siiOut, FrameLength)
      ensures sampled == old(sampled) + FrameLength
    {
      ghost var t0, trace0 := sampled, trace;
      var inBits: bv16 := 0;
      var i: int := 10;
      ghost var n: nat := 0;
      while i >= 0
        invariant -1 <= i <= 10 && n == 10 - i
        invariant sampled == t0 + n
        invariant trace == trace0 + Cycles(sdiOut, siiOut, n)
        invariant inBits == AccumulateAt(sdo, t0, n)
      {
        ghost var before := trace;
        trace := trace + [Drive(SDI, sdiOut[10 - i])];
        trace := trace + [Drive(SII, siiOut[10 - i])];
        var level := sdo(sampled);
        trace := trace + [Sample];
        sampled := sampled + 1;
        inBits := ShiftIn(inBits, level);
        trace := trace + [Drive(SCI, true)];
        trace := trace + [Drive(SCI, false)];
        CycleStep(trace0, sdiOut, siiOut, n, before, trace);
        n := n + 1;
        i := i - 1;
      }
      AccumulateAtResponse(sdo, t0);
      response := ((inBits >> 2) & 0xFF) as bv8;
    }

    /**
     * Read signature bytes 1 and 2, each by a mode select, the byte index,
     * and two read strobes, shifting the 16-bit result left by 8 and adding
     * each byte.
     */
    method ReadSignature() returns (signature: bv16)
      modifies this
      ensures signature == SignatureAt(sdo, old(sampled))
      ensures trace == old(trace) + TxnsTrace(SignatureTxns())
      ensures sampled == old(sampled) + 88
    {
      ghost var t0, trace0 := sampled, trace;
      signature := 0;
      var value: bv8;
      var index: bv8 := 1;
      while index < 3
        invariant 1 <= index <= 3
        invariant sampled == t0 + 44 * (index as int - 1)
        invariant trace == trace0 + TxnsTrace(SignatureRounds(index as int - 1))
        invariant signature == SignatureFold(sdo, t0, index as int - 1)
      {
        ghost var rounds := index as int - 1;
        value := ReadSignatureByte(index);
        assert SignatureFold(sdo, t0, rounds + 1) == ShiftAdd(signature, ResponseAt(sdo, t0 + 44 * rounds + 33));
        TxnsTraceAppend(SignatureRounds(index as int - 1), SignatureRound(index));
        AppendAssoc(trace0, TxnsTrace(SignatureRounds(index as int - 1)), TxnsTrace(SignatureRound(index)));
        signature := ShiftAdd(signature, value);
        index := index + 1;
      }
      SignatureFoldIsBigEndian(sdo, t0);
    }

    /**
     * One round of the signature read: select the signature read, load the
     * byte's index, then the two strobes; the byte is the response to the
     * last one.
     */
    method ReadSignatureByte(index: bv8) returns (b: bv8)
      modifies this
      ensures b == ResponseAt(sdo, old(sampled) + 3 * FrameLength)
      ensures trace == old(trace) + TxnsTrace(SignatureRound(index))
      ensures sampled == old(sampled) + 4 * FrameLength
    {
      ghost var trace0 := trace;
      ghost var round := SignatureRound(index);
      b := ShiftOut(ReadSignatureBytes, LoadCommand);
      b := ShiftOut(index, LoadAddressLow);
      b := ShiftOut(NoData, LowReadStrobe);
      b := ShiftOut(NoData, LowStrobeEnd);
      FourTxns(trace0, round[0], round[1], round[2], round[3]);
      assert [round[0], round[1], round[2], round[3]] == round;
    }

    /**
     * The three transfers that read one fuse or lock byte: the read mode
     * select, then the byte's two strobes; the byte is the response to the
     * last one.
     */
    method ReadByte(strobe: bv8, strobeEnd: bv8) returns (b: bv8)
      modifies this
      ensures b == ResponseAt(sdo, old(sampled) + 2 * FrameLength)
      ensures trace == old(trace) + TxnsTrace(ReadByteTxns(strobe, strobeEnd))
      ensures sampled == old(sampled) + 3 * FrameLength
    {
      ghost var trace0 := trace;
      var ignored: bv8;
      ignored := ShiftOut(ReadFuseAndLock, LoadCommand);
      ignored := ShiftOut(NoData, strobe);
      b := ShiftOut(NoData, strobeEnd);
      ThreeTxns(trace0, Txn(ReadFuseAndLock, LoadCommand), Txn(NoData, strobe), Txn(NoData, strobeEnd));
    }

    /** Read the low, high and extended fuse bytes, in that order. */
    method ReadFuses() returns (fuses: FuseBytes)
      modifies this
      ensures fuses == FusesAt(sdo, old(sampled))
      ensures trace == old(trace) + TxnsTrace(ReadFuseTxns())
      ensures sampled == old(sampled) + 99
    {
      ghost var trace0 := trace;
      var low := ReadByte(LowReadStrobe, LowStrobeEnd);
      var high := ReadByte(ReadHighFuse, ReadHighFuseEnd);
      var extended := ReadByte(ReadExtendedFuse, ReadExtendedFuseEnd);
      ThreeRuns(trace0, ReadByteTxns(LowReadStrobe, LowStrobeEnd), ReadByteTxns(ReadHighFuse, ReadHighFuseEnd),
                ReadByteTxns(ReadExtendedFuse, ReadExtendedFuseEnd));
      fuses := FuseBytes(low, high, extended);
    }

    /**
     * Read the lock byte and report LB1 (bit 0) and LB2 (bit 1), each
     * programmed when it reads 0.
     */
    method ReadLockBits() returns (lock: bv8, bits: LockBits)
      modifies this
      ensures lock == LockAt(sdo, old(sampled))
      ensures bits == DecodeLock(lock)
      ensures trace == old(trace) + TxnsTrace(ReadLockTxns())
      ensures sampled == old(sampled) + 33
    {
      lock := ReadByte(ReadLock, ReadLockEnd);
      var lb1Programmed, lb2Programmed: bool;
      if lock & 0x01 != 0 {
        lb1Programmed := false;
      } else {
        lb1Programmed := true;
      }
      if lock & 0x02 != 0 {
        lb2Programmed := false;
      } else {
        lb2Programmed := true;
      }
      bits := LockBits(lb1Programmed, lb2Programmed);
    }

    /** Erase the flash and the lock bits. */
    method EraseFlashAndLockBits()
      modifies this
      ensures trace == old(trace) + TxnsTrace(EraseTxns())
      ensures sampled == old(sampled) + 33
    {
      ghost var trace0 := trace;
      var ignored: bv8;
      ignored := ShiftOut(ChipErase, LoadCommand);
      ignored := ShiftOut(NoData, EraseStrobe);
      ignored := ShiftOut(NoData, LowStrobeEnd);
      ThreeTxns(trace0, Txn(ChipErase, LoadCommand), Txn(NoData, EraseStrobe), Txn(NoData, LowStrobeEnd));
    }

    /** Write a fuse byte to the fuse the selector names: the selector's high byte, then its low byte. */
    method WriteFuse(fuseAddress: bv16, fuseValue: bv8)
      modifies this
      ensures trace == old(trace) + TxnsTrace(WriteFuseTxns(FuseWrite(fuseAddress, fuseValue)))
      ensures sampled == old(sampled) + 44
    {
      ghost var trace0 := trace;
      ghost var ts := WriteFuseTxns(FuseWrite(fuseAddress, fuseValue));
      var ignored: bv8;
      ignored := ShiftOut(WriteFuseBits, LoadCommand);
      ignored := ShiftOut(fuseValue, LoadDataLow);
      ignored := ShiftOut(NoData, (fuseAddress >> 8) as bv8);
      ignored := ShiftOut(NoData, (fuseAddress & 0xFF) as bv8);
      FourTxns(trace0, ts[0], ts[1], ts[2], ts[3]);
      assert [ts[0], ts[1], ts[2], ts[3]] == ts;
    }

    /** Clock low, target supply off, 12 V off. */
    method PowerDown()
      modifies this
      ensures trace == old(trace) + PowerDownEvents()
      ensures sampled == old(sampled)
    {
      trace := trace + [Drive(SCI, false)];
      trace := trace + [Drive(VCC, false)];
      trace := trace + [Drive(RST, true)];
    }

    /**
     * One programming session after power-up: read the signature, the fuses
     * and the lock bits; erase when the mode asks for it; write the default
     * fuses of a recognised part unless the mode asks to erase or only to
     * read; read fuses and lock bits again unless the mode asks only to read;
     * then power the target down.
     */
    method RunSession(mode: char) returns (signature: bv16)
      modifies this
      ensures signature == SignatureAt(sdo, old(sampled))
      ensures trace == old(trace) + SessionTrace(mode, signature)
      ensures sampled == old(sampled) + 11 * |SessionTxns(mode, signature)|
    {
      ghost var trace0 := trace;
      signature := ReadSignature();
      ghost var e0, s0 := trace, sampled;
      ReadFusesAndLockBits();

      ghost var e1, s1 := trace, sampled;
      RanNothing(e1, s1);
      if IsEraseMode(mode) {
        assert EraseOps(mode)[..0] == [];
        EraseFlashAndLockBits();
        RanStep(e1, s1, EraseOps(mode), 0, e1, s1, trace, sampled);
        assert EraseOps(mode)[..1] == EraseOps(mode);
      }
      RanAppend(e0, s0, FuseAndLockReads, e1, s1, EraseOps(mode), trace, sampled);

      ghost var e2, s2 := trace, sampled;
      WriteDefaultFuses(mode, signature);
      RanAppend(e0, s0, FuseAndLockReads + EraseOps(mode), e2, s2, WriteOps(SessionWrites(mode, signature)), trace, sampled);

      ghost var e3, s3 := trace, sampled;
      if !IsReadMode(mode) {
        ReadFusesAndLockBits();
      } else {
        RanNothing(e3, s3);
      }
      RanAppend(e0, s0, FuseAndLockReads + EraseOps(mode) + WriteOps(SessionWrites(mode, signature)),
                e3, s3, VerifyOps(mode), trace, sampled);

      ghost var e4 := trace;
      PowerDown();
      SessionTraceOf(trace0, e0, e4, mode, signature);
    }

    /** Read the fuses, then the lock bits. */
    method ReadFusesAndLockBits()
      modifies this
      ensures Ran(old(trace), old(sampled), FuseAndLockReads, trace, sampled)
    {
      ghost var base, t := trace, sampled;
      ghost var plan := FuseAndLockReads;
      RanNothing(base, t);
      assert plan[..0] == [];
      var fuses := ReadFuses();
      RanStep(base, t, plan, 0, base, t, trace, sampled);
      ghost var middle, s := trace, sampled;
      var lock, bits := ReadLockBits();
      RanStep(base, t, plan, 1, middle, s, trace, sampled);
      assert plan[..2] == plan;
    }

    /**
     * Write the default fuses of a recognised part, in table order, unless
     * the mode asks to erase or only to read; an unknown part gets none.
     */
    method WriteDefaultFuses(mode: char, signature: bv16)
      modifies this
      ensures Ran(old(trace), old(sampled), WriteOps(SessionWrites(mode, signature)), trace, sampled)
    {
      ghost var base, t := trace, sampled;
      ghost var plan := WriteOps(SessionWrites(mode, signature));
      RanNothing(base, t);
      assert plan[..0] == [];
      if signature == ATTINY13 {
        if IsWriteMode(mode) {
          assert SessionWrites(mode, signature) == Tiny13Defaults;
          WriteTiny13Defaults();
        } else {
          assert SessionWrites(mode, signature) == [];
        }
      } else if signature == ATTINY24 || signature == ATTINY44 || signature == ATTINY84
             || signature == ATTINY25 || signature == ATTINY45 || signature == ATTINY85 {
        if IsWriteMode(mode) {
          assert SessionWrites(mode, signature) == TinyX4X5Defaults;
          WriteTinyX4X5Defaults();
        } else {
          assert SessionWrites(mode, signature) == [];
        }
      } else {
        assert SessionWrites(mode, signature) == [];
      }
    }

    /** The ATtiny13 defaults: LFUSE 0x6A, then HFUSE 0xFF. */
    method WriteTiny13Defaults()
      modifies this
      ensures Ran(old(trace), old(sampled), WriteOps(Tiny13Defaults), trace, sampled)
    {
      ghost var base, t := trace, sampled;
      ghost var plan := WriteOps(Tiny13Defaults);
      RanNothing(base, t);
      assert plan[..0] == [];
      WriteFuse(LFUSE, 0x6A);
      RanStep(base, t, plan, 0, base, t, trace, sampled);
      ghost var e1, s1 := trace, sampled;
      WriteFuse(HFUSE, 0xFF);
      RanStep(base, t, plan, 1, e1, s1, trace, sampled);
      assert plan[..2] == plan;
    }

    /** The ATtiny24/44/84 and ATtiny25/45/85 defaults: LFUSE 0x62, HFUSE 0xDF, then EFUSE 0xFF. */
    method WriteTinyX4X5Defaults()
      modifies this
      ensures Ran(old(trace), old(sampled), WriteOps(TinyX4X5Defaults), trace, sampled)
    {
      ghost var base, t := trace, sampled;
      ghost var plan := WriteOps(TinyX4X5Defaults);
      RanNothing(base, t);
      assert plan[..0] == [];
      WriteFuse(LFUSE, 0x62);
      RanStep(base, t, plan, 0, base, t, trace, sampled);
      ghost var e1, s1 := trace, sampled;
      WriteFuse(HFUSE, 0xDF);
      RanStep(base, t, plan, 1, e1, s1, trace, sampled);
      ghost var e2, s2 := trace, sampled;
      WriteFuse(EFUSE, 0xFF);
      RanStep(base, t, plan, 2, e2, s2, trace, sampled);
      assert plan[..3] == plan;
    }
  }
}
