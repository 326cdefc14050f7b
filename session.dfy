/**
 * What one programming session does, as a function of the requested mode
 * and the signature it reads: the operations it runs after the signature
 * read, the transfers they make, and the pin activity of the whole session.
 */
module Session {
  import opened Options
  import opened Frames
  import opened Trace
  import opened Commands

  /** 'e' or 'E' asks for a chip erase. */
  predicate IsEraseMode(mode: char)
  {
    mode == 'e' || mode == 'E'
  }

  /** 'r' or 'R' asks to read only. */
  predicate IsReadMode(mode: char)
  {
    mode == 'r' || mode == 'R'
  }

  /** Any other character (and the start button) asks to write the default fuses. */
  predicate IsWriteMode(mode: char)
  {
    !IsEraseMode(mode) && !IsReadMode(mode)
  }

  /** The signatures the programmer recognises. */
  const KnownSignatures: set<bv16> :=
    {ATTINY13, ATTINY24, ATTINY25, ATTINY44, ATTINY45, ATTINY84, ATTINY85}

  /** The factory fuses of the ATtiny13: LFUSE then HFUSE (the part has no extended fuse). */
  const Tiny13Defaults: seq<FuseWrite> := [FuseWrite(LFUSE, 0x6A), FuseWrite(HFUSE, 0xFF)]

  /** The factory fuses of the ATtiny24/44/84 and ATtiny25/45/85: LFUSE, HFUSE, then EFUSE. */
  const TinyX4X5Defaults: seq<FuseWrite> :=
    [FuseWrite(LFUSE, 0x62), FuseWrite(HFUSE, 0xDF), FuseWrite(EFUSE, 0xFF)]

  /**
   * The factory fuse values written to a recognised part, in the order they
   * are written; an unknown signature gets none.
   */
  function DefaultFuses(signature: bv16): (writes: Option<seq<FuseWrite>>)
    ensures writes.Some? <==> signature in KnownSignatures
    ensures writes.Some? ==>
              && 2 <= |writes.value| <= 3
              && writes.value[0] == FuseWrite(LFUSE, writes.value[0].value)
              && writes.value[1] == FuseWrite(HFUSE, writes.value[1].value)
    ensures writes.Some? ==> (|writes.value| == 2 <==> signature == ATTINY13)
    ensures writes.Some? && |writes.value| == 3 ==> writes.value[2].address == EFUSE
  {
    if signature == ATTINY13 then
      Some(Tiny13Defaults)
    else if signature in {ATTINY24, ATTINY44, ATTINY84, ATTINY25, ATTINY45, ATTINY85} then
      Some(TinyX4X5Defaults)
    else
      None
  }

  /** The operations a session runs after reading the signature. */
  datatype Op = ReadFuses | ReadLockBits | Erase | WriteFuse(w: FuseWrite)

  /** The transfers an operation makes. */
  function OpTxns(op: Op): seq<Txn>
  {
    match op
    case ReadFuses => ReadFuseTxns()
    case ReadLockBits => ReadLockTxns()
    case Erase => EraseTxns()
    case WriteFuse(w) => WriteFuseTxns(w)
  }

  /** The transfers of a run of operations, in order. */
  function PlanTxns(ops: seq<Op>): seq<Txn>
  {
    if ops == [] then [] else PlanTxns(ops[..|ops| - 1]) + OpTxns(ops[|ops| - 1])
  }

  /** The fuse-write operations for a list of fuse writes. */
  function WriteOps(writes: seq<FuseWrite>): (ops: seq<Op>)
    ensures |ops| == |writes|
    ensures forall k :: 0 <= k < |ops| ==> ops[k] == WriteFuse(writes[k])
  {
    if writes == [] then [] else WriteOps(writes[..|writes| - 1]) + [WriteFuse(writes[|writes| - 1])]
  }

  /** The fuse writes issued by a run of operations, in order. */
  function FuseWrites(ops: seq<Op>): seq<FuseWrite>
  {
    if ops == [] then []
    else FuseWrites(ops[..|ops| - 1]) + (if ops[|ops| - 1].WriteFuse? then [ops[|ops| - 1].w] else [])
  }

  /** The fuse writes of a session whose mode and signature call for them. */
  function SessionWrites(mode: char, signature: bv16): seq<FuseWrite>
  {
    if IsWriteMode(mode) && DefaultFuses(signature).Some? then DefaultFuses(signature).value else []
  }

  /** The fuse read followed by the lock-bit read, as at the start and at the end of a session. */
  const FuseAndLockReads: seq<Op> := [ReadFuses, ReadLockBits]

  /** The erase a session runs when asked to. */
  function EraseOps(mode: char): seq<Op>
  {
    if IsEraseMode(mode) then [Erase] else []
  }

  /** The verification reads a session runs unless it is read-only. */
  function VerifyOps(mode: char): seq<Op>
  {
    if IsReadMode(mode) then [] else FuseAndLockReads
  }

  /**
   * The operations after the signature read: the fuses and lock bits are
   * always read first; then an erase when asked for; then the default fuse
   * writes; then, unless the session is read-only, fuses and lock bits again.
   */
  function SessionOps(mode: char, signature: bv16): seq<Op>
  {
    FuseAndLockReads + EraseOps(mode) + WriteOps(SessionWrites(mode, signature)) + VerifyOps(mode)
  }

  /**
   * Where each operation of a session sits: the two first reads at 0 and 1,
   * the erase (when asked for) at 2, the fuse writes in table order after
   * it, and the two verification reads (unless read-only) last.
   */
  lemma SessionOpsLayout(mode: char, signature: bv16)
    ensures var ops, e, w := SessionOps(mode, signature), (if IsEraseMode(mode) then 1 else 0), SessionWrites(mode, signature);
      && |ops| == 2 + e + |w| + (if IsReadMode(mode) then 0 else 2)
      && ops[0] == ReadFuses && ops[1] == ReadLockBits
      && (IsEraseMode(mode) ==> ops[2] == Erase)
      && (forall j :: 0 <= j < |w| ==> ops[2 + e + j] == WriteFuse(w[j]))
      && (!IsReadMode(mode) ==> ops[2 + e + |w|] == ReadFuses && ops[3 + e + |w|] == ReadLockBits)
  {
  }

  /** Every transfer of a session: the signature read, then its operations. */
  function SessionTxns(mode: char, signature: bv16): seq<Txn>
  {
    SignatureTxns() + PlanTxns(SessionOps(mode, signature))
  }

  /** Clock low, target supply off, 12 V off (the reset line's level shifter inverts). */
  function PowerDownEvents(): seq<Event>
  {
    [Drive(SCI, false), Drive(VCC, false), Drive(RST, true)]
  }

  /** The pin activity of a whole session after power-up. */
  function SessionTrace(mode: char, signature: bv16): seq<Event>
  {
    TxnsTrace(SessionTxns(mode, signature)) + PowerDownEvents()
  }

  /** Extending a run of operations by one extends its transfers by that operation's. */
  lemma PlanSnoc(ops: seq<Op>, op: Op)
    ensures PlanTxns(ops + [op]) == PlanTxns(ops) + OpTxns(op)
  {
    var ops' := ops + [op];
    assert ops'[..|ops'| - 1] == ops;
    assert ops'[|ops'| - 1] == op;
  }

  /** The transfers of two runs of operations one after the other are the transfers of each, in order. */
  lemma {:induction false} PlanAppend(a: seq<Op>, b: seq<Op>)
    ensures PlanTxns(a + b) == PlanTxns(a) + PlanTxns(b)
  {
    if b == [] {
      assert a + b == a;
    } else {
      var front, op := b[..|b| - 1], b[|b| - 1];
      assert a + b == (a + front) + [op];
      assert front + [op] == b;
      PlanAppend(a, front);
      PlanSnoc(a + front, op);
      PlanSnoc(front, op);
    }
  }

  lemma {:induction false} FuseWritesAppend(a: seq<Op>, b: seq<Op>)
    ensures FuseWrites(a + b) == FuseWrites(a) + FuseWrites(b)
  {
    if b == [] {
      assert a + b == a;
    } else {
      var front := b[..|b| - 1];
      FuseWritesAppend(a, front);
      assert (a + b)[..|a + b| - 1] == a + front;
    }
  }

  lemma {:induction false} FuseWritesOfWriteOps(writes: seq<FuseWrite>)
    ensures FuseWrites(WriteOps(writes)) == writes
  {
    if writes != [] {
      var front := writes[..|writes| - 1];
      FuseWritesOfWriteOps(front);
      FuseWritesAppend(WriteOps(front), [WriteFuse(writes[|writes| - 1])]);
      assert [WriteFuse(writes[|writes| - 1])][..0] == [];
    }
  }

  /** A run of operations without a fuse write issues no fuse write. */
  lemma {:induction false} FuseWritesNone(ops: seq<Op>)
    requires forall k :: 0 <= k < |ops| ==> !ops[k].WriteFuse?
    ensures FuseWrites(ops) == []
  {
    if ops != [] {
      FuseWritesNone(ops[..|ops| - 1]);
    }
  }

  /** Operations around a run of fuse writes add no fuse write of their own. */
  lemma FuseWritesBetween(a: seq<Op>, b: seq<Op>, c: seq<Op>, d: seq<Op>)
    requires forall k :: 0 <= k < |a| ==> !a[k].WriteFuse?
    requires forall k :: 0 <= k < |b| ==> !b[k].WriteFuse?
    requires forall k :: 0 <= k < |d| ==> !d[k].WriteFuse?
    ensures FuseWrites(a + b + c + d) == FuseWrites(c)
  {
    FuseWritesAppend(a + b + c, d);
    FuseWritesAppend(a + b, c);
    FuseWritesAppend(a, b);
    FuseWritesNone(a);
    FuseWritesNone(b);
    FuseWritesNone(d);
  }

  /** The fuse writes a session issues are those its mode and signature call for. */
  lemma FuseWritesOfSession(mode: char, signature: bv16)
    ensures FuseWrites(SessionOps(mode, signature)) == SessionWrites(mode, signature)
  {
    var writes := SessionWrites(mode, signature);
    var b: seq<Op> := if IsEraseMode(mode) then [Erase] else [];
    var d: seq<Op> := if !IsReadMode(mode) then [ReadFuses, ReadLockBits] else [];
    FuseWritesBetween([ReadFuses, ReadLockBits], b, WriteOps(writes), d);
    FuseWritesOfWriteOps(writes);
  }

  /**
   * A session writes fuses only in write mode and only to a recognised part,
   * and then exactly that part's defaults in table order; an erase session,
   * a read-only session and an unknown part get no fuse write.
   */
  lemma SessionFuseWrites(mode: char, signature: bv16)
    ensures FuseWrites(SessionOps(mode, signature))
      == if IsWriteMode(mode) && signature in KnownSignatures then DefaultFuses(signature).value else []
    ensures signature == ATTINY13 && IsWriteMode(mode) ==>
      FuseWrites(SessionOps(mode, signature)) == [FuseWrite(LFUSE, 0x6A), FuseWrite(HFUSE, 0xFF)]
    ensures signature in KnownSignatures - {ATTINY13} && IsWriteMode(mode) ==>
      FuseWrites(SessionOps(mode, signature))
        == [FuseWrite(LFUSE, 0x62), FuseWrite(HFUSE, 0xDF), FuseWrite(EFUSE, 0xFF)]
  {
    FuseWritesOfSession(mode, signature);
  }

  /** A session erases exactly when the mode asks for it, whatever the signature, and right after the first reads. */
  lemma SessionErase(mode: char, signature: bv16)
    ensures Erase in SessionOps(mode, signature) <==> IsEraseMode(mode)
    ensures IsEraseMode(mode) ==> SessionOps(mode, signature)[2] == Erase
  {
    var ops := SessionOps(mode, signature);
    var c := WriteOps(SessionWrites(mode, signature));
    assert ops == [ReadFuses, ReadLockBits]
      + (if IsEraseMode(mode) then [Erase] else [])
      + c
      + (if !IsReadMode(mode) then [ReadFuses, ReadLockBits] else []);
    if IsEraseMode(mode) {
      assert ops[2] == Erase;
    } else {
      assert forall k :: 0 <= k < |c| ==> c[k].WriteFuse?;
      assert Erase !in ops;
    }
  }

  /**
   * A session always starts by reading fuses and lock bits; it reads them
   * again at the end exactly when it is not read-only, and a read-only
   * session does nothing else.
   */
  lemma SessionReads(mode: char, signature: bv16)
    ensures SessionOps(mode, signature)[..2] == [ReadFuses, ReadLockBits]
    ensures IsReadMode(mode) ==> SessionOps(mode, signature) == [ReadFuses, ReadLockBits]
    ensures !IsReadMode(mode) ==>
              && |SessionOps(mode, signature)| >= 4
              && SessionOps(mode, signature)[|SessionOps(mode, signature)| - 2..] == [ReadFuses, ReadLockBits]
  {
    if IsReadMode(mode) {
      assert WriteOps(SessionWrites(mode, signature)) == [];
    }
  }

  /** After the power-down events the clock is low, the target supply off and the 12 V supply off. */
  lemma PoweredDown(events: seq<Event>)
    requires |events| >= 3 && events[|events| - 3..] == PowerDownEvents()
    ensures LastLevel(events, SCI) == Some(false)
    ensures LastLevel(events, VCC) == Some(false)
    ensures LastLevel(events, RST) == Some(true)
  {
    var n := |events|;
    assert events[n - 1] == Drive(RST, true);
    var e1 := events[..n - 1];
    assert e1[n - 2] == Drive(VCC, false);
    assert LastLevel(events, SCI) == LastLevel(e1, SCI);
    var e2 := e1[..n - 2];
    assert e2[n - 3] == Drive(SCI, false);
    assert LastLevel(e1, SCI) == LastLevel(e2, SCI);
  }

  /** Every session ends with the clock low, the target supply off and the 12 V supply off, whatever branch it took. */
  lemma SessionPowersDown(before: seq<Event>, mode: char, signature: bv16)
    ensures var events := before + SessionTrace(mode, signature);
      && LastLevel(events, SCI) == Some(false)
      && LastLevel(events, VCC) == Some(false)
      && LastLevel(events, RST) == Some(true)
  {
    var body := before + TxnsTrace(SessionTxns(mode, signature));
    var events := before + SessionTrace(mode, signature);
    assert events == body + PowerDownEvents();
    assert events[|events| - 3..] == PowerDownEvents();
    PoweredDown(events);
  }

  /** Erasing an ATtiny85: erase, no fuse write, then the verification reads. */
  lemma EraseAttiny85()
    ensures SessionOps('e', ATTINY85) == [ReadFuses, ReadLockBits, Erase, ReadFuses, ReadLockBits]
  {
    assert SessionWrites('e', ATTINY85) == [];
  }

  /** An unknown part in write mode gets no write, but is still read twice. */
  lemma UnknownPartIsOnlyRead(mode: char, signature: bv16)
    requires IsWriteMode(mode) && signature !in KnownSignatures
    ensures SessionOps(mode, signature) == [ReadFuses, ReadLockBits, ReadFuses, ReadLockBits]
  {
    assert SessionWrites(mode, signature) == [];
  }
}
