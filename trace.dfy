/**
 * The pin activity of the programmer, and the transfers it is made of.
 *
 * Every pin write becomes a Drive event, and every read of the target's SDO
 * line inside a transfer's clock loop a Sample event. The level the target
 * shows is not part of the trace (it is an input, see HvProgrammer.sdo), and
 * the reads of SDO that only wait for it to go high leave no event.
 */
module Trace {
  import opened Options
  import opened Frames

  /** The output lines of the programmer. */
  datatype Pin = SDI | SII | SCI | VCC | RST

  datatype Event = Drive(pin: Pin, high: bool) | Sample

  /** One bit-channel transfer: a value byte on SDI and an address byte on SII. */
  datatype Txn = Txn(value: bv8, address: bv8)

  /** One clock cycle: drive both data lines, sample SDO, then pulse the clock high and low. */
  function BitCycle(sdi: bool, sii: bool): seq<Event>
  {
    [Drive(SDI, sdi), Drive(SII, sii), Sample, Drive(SCI, true), Drive(SCI, false)]
  }

  /** The first n clock cycles of a transfer driving the given line levels. */
  function Cycles(sdi: seq<bool>, sii: seq<bool>, n: nat): (events: seq<Event>)
    requires n <= |sdi| && n <= |sii|
    ensures |events| == 5 * n
  {
    if n == 0 then [] else Cycles(sdi, sii, n - 1) + BitCycle(sdi[n - 1], sii[n - 1])
  }

  /** Cycle k of a run of cycles occupies events 5k to 5k + 4. */
  lemma {:induction false} CyclesAt(sdi: seq<bool>, sii: seq<bool>, n: nat, k: nat)
    requires n <= |sdi| && n <= |sii| && k < n
    ensures Cycles(sdi, sii, n)[5 * k .. 5 * k + 5] == BitCycle(sdi[k], sii[k])
  {
    var prev, last := Cycles(sdi, sii, n - 1), BitCycle(sdi[n - 1], sii[n - 1]);
    assert Cycles(sdi, sii, n) == prev + last;
    if k < n - 1 {
      CyclesAt(sdi, sii, n - 1, k);
      assert (prev + last)[5 * k .. 5 * k + 5] == prev[5 * k .. 5 * k + 5];
    } else {
      assert (prev + last)[5 * k .. 5 * k + 5] == last;
    }
  }

  /** The number of times e occurs in a run of events. */
  function Count(events: seq<Event>, e: Event): nat
  {
    if events == [] then 0
    else (if events[0] == e then 1 else 0) + Count(events[1..], e)
  }

  lemma {:induction false} CountAppend(a: seq<Event>, b: seq<Event>, e: Event)
    ensures Count(a + b, e) == Count(a, e) + Count(b, e)
  {
    if a == [] {
      assert a + b == b;
    } else {
      CountAppend(a[1..], b, e);
      assert (a + b)[1..] == a[1..] + b;
    }
  }

  /** One cycle holds one sample and one clock rise and fall. */
  lemma BitCycleCount(sdi: bool, sii: bool)
    ensures Count(BitCycle(sdi, sii), Sample) == 1
    ensures Count(BitCycle(sdi, sii), Drive(SCI, true)) == 1
    ensures Count(BitCycle(sdi, sii), Drive(SCI, false)) == 1
  {
    var c := BitCycle(sdi, sii);
    assert c[1..][1..][1..][1..][1..] == [];
  }

  /** A run of n cycles holds n samples and n clock pulses, each a rise then a fall. */
  lemma {:induction false} CyclesCount(sdi: seq<bool>, sii: seq<bool>, n: nat)
    requires n <= |sdi| && n <= |sii|
    ensures Count(Cycles(sdi, sii, n), Sample) == n
    ensures Count(Cycles(sdi, sii, n), Drive(SCI, true)) == n
    ensures Count(Cycles(sdi, sii, n), Drive(SCI, false)) == n
  {
    if n > 0 {
      CyclesCount(sdi, sii, n - 1);
      BitCycleCount(sdi[n - 1], sii[n - 1]);
      var prev, last := Cycles(sdi, sii, n - 1), BitCycle(sdi[n - 1], sii[n - 1]);
      CountAppend(prev, last, Sample);
      CountAppend(prev, last, Drive(SCI, true));
      CountAppend(prev, last, Drive(SCI, false));
    }
  }

  /** The pin activity of one transfer: event i belongs to clock cycle i / 5. */
  function CycleTrace(t: Txn): (events: seq<Event>)
    ensures |events| == 55
  {
    var sdi, sii := Frame(t.value), Frame(t.address);
    seq(55, i requires 0 <= i < 55 => BitCycle(sdi[i / 5], sii[i / 5])[i % 5])
  }

  /** A transfer is the 11 clock cycles that drive its two frames. */
  lemma CycleTraceIsCycles(t: Txn)
    ensures CycleTrace(t) == Cycles(Frame(t.value), Frame(t.address), FrameLength)
  {
    var sdi, sii := Frame(t.value), Frame(t.address);
    var c := Cycles(sdi, sii, FrameLength);
    forall i | 0 <= i < 55 ensures CycleTrace(t)[i] == c[i] {
      var k := i / 5;
      CyclesAt(sdi, sii, FrameLength, k);
      assert c[i] == c[5 * k .. 5 * k + 5][i - 5 * k];
    }
  }

  /**
   * A transfer is 11 clock cycles, most significant frame bit first: in cycle
   * k the programmer drives bit k of each frame, samples SDO once, then
   * pulses the clock; so it makes exactly 11 samples and 11 clock pulses.
   */
  lemma CycleTraceShape(t: Txn)
    ensures forall k :: 0 <= k < FrameLength ==>
      CycleTrace(t)[5 * k .. 5 * k + 5] == BitCycle(Frame(t.value)[k], Frame(t.address)[k])
    ensures Count(CycleTrace(t), Sample) == FrameLength
    ensures Count(CycleTrace(t), Drive(SCI, true)) == FrameLength
    ensures Count(CycleTrace(t), Drive(SCI, false)) == FrameLength
  {
    CycleTraceIsCycles(t);
    forall k | 0 <= k < FrameLength
      ensures CycleTrace(t)[5 * k .. 5 * k + 5] == BitCycle(Frame(t.value)[k], Frame(t.address)[k])
    {
      CyclesAt(Frame(t.value), Frame(t.address), FrameLength, k);
    }
    CyclesCount(Frame(t.value), Frame(t.address), FrameLength);
  }

  /** Concatenation of event runs is associative. */
  lemma AppendAssoc(x: seq<Event>, y: seq<Event>, z: seq<Event>)
    ensures (x + y) + z == x + (y + z)
  {
  }

  /** The empty run of events is a left unit of concatenation. */
  lemma AppendEmpty(x: seq<Event>)
    ensures [] + x == x
  {
  }

  /** The pin activity of a sequence of transfers, in order. */
  function TxnsTrace(ts: seq<Txn>): (events: seq<Event>)
    ensures |events| == 55 * |ts|
  {
    if ts == [] then [] else TxnsTrace(ts[..|ts| - 1]) + CycleTrace(ts[|ts| - 1])
  }

  lemma TxnsTraceSnoc(ts: seq<Txn>, t: Txn)
    ensures TxnsTrace(ts + [t]) == TxnsTrace(ts) + CycleTrace(t)
  {
    assert (ts + [t])[..|ts|] == ts;
  }

  /** The trace of two transfer sequences run one after the other is the concatenation of their traces. */
  lemma {:induction false} TxnsTraceAppend(a: seq<Txn>, b: seq<Txn>)
    ensures TxnsTrace(a + b) == TxnsTrace(a) + TxnsTrace(b)
  {
    if b == [] {
      assert a + b == a;
    } else {
      var front, last := b[..|b| - 1], b[|b| - 1];
      assert b == front + [last];
      assert a + b == (a + front) + [last];
      TxnsTraceAppend(a, front);
      TxnsTraceSnoc(a + front, last);
      TxnsTraceSnoc(front, last);
    }
  }

  /** The level an event drives (a sample drives nothing and reads as low). */
  function LevelOf(e: Event): bool
  {
    match e
    case Drive(_, high) => high
    case Sample => false
  }

  /** The levels driven by the event at position offset of each of the 11 cycles of a transfer. */
  function Levels(events: seq<Event>, offset: nat): (levels: seq<bool>)
    requires |events| == 55 && offset < 5
    ensures |levels| == FrameLength
  {
    seq(11, k requires 0 <= k < 11 => LevelOf(events[5 * k + offset]))
  }

  /**
   * The transfer a listener on SDI and SII recovers from the events of one
   * transfer: the levels of the first and second event of each cycle, read
   * back the way the programmer reads SDO.
   */
  function DecodeCycle(events: seq<Event>): Txn
    requires |events| == 55
  {
    Txn(Response(Levels(events, 0)), Response(Levels(events, 1)))
  }

  /** The first event of each cycle drives SDI to the value's frame and the second drives SII to the address's frame. */
  lemma CycleTraceLevels(t: Txn)
    ensures Levels(CycleTrace(t), 0) == Frame(t.value)
    ensures Levels(CycleTrace(t), 1) == Frame(t.address)
  {
    var events := CycleTrace(t);
    forall k | 0 <= k < 11
      ensures Levels(events, 0)[k] == Frame(t.value)[k]
      ensures Levels(events, 1)[k] == Frame(t.address)[k]
    {
      assert (5 * k) / 5 == k && (5 * k) % 5 == 0;
      assert (5 * k + 1) / 5 == k && (5 * k + 1) % 5 == 1;
    }
  }

  /** The levels driven on SDI and SII can be read back as the bytes that were sent. */
  lemma DecodeCycleTrace(t: Txn)
    ensures DecodeCycle(CycleTrace(t)) == t
  {
    CycleTraceLevels(t);
    ResponseOfFrame(t.value);
    ResponseOfFrame(t.address);
  }

  /** The transfers recovered from a trace made of whole transfers. */
  function DecodeTrace(events: seq<Event>): (ts: seq<Txn>)
    requires |events| % (55) == 0
    decreases |events|
  {
    if events == [] then []
    else DecodeTrace(events[..|events| - 55]) + [DecodeCycle(events[|events| - 55..])]
  }

  /** The trace of a transfer sequence determines the sequence, order included. */
  lemma {:induction false} DecodeTxnsTrace(ts: seq<Txn>)
    ensures DecodeTrace(TxnsTrace(ts)) == ts
  {
    if ts != [] {
      var front := ts[..|ts| - 1];
      var events := TxnsTrace(ts);
      DecodeTxnsTrace(front);
      assert events == TxnsTrace(front) + CycleTrace(ts[|ts| - 1]);
      assert events[..|events| - 55] == TxnsTrace(front);
      assert events[|events| - 55..] == CycleTrace(ts[|ts| - 1]);
      DecodeCycleTrace(ts[|ts| - 1]);
    }
  }

  /** The level last driven on a pin, if any. */
  function LastLevel(events: seq<Event>, pin: Pin): Option<bool>
  {
    if events == [] then None
    else
      var e := events[|events| - 1];
      if e.Drive? && e.pin == pin then Some(e.high) else LastLevel(events[..|events| - 1], pin)
  }
}
