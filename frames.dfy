/**
 * Bit-level layout of one High-Voltage Serial Programming transfer.
 *
 * A transfer clocks 11 bits. The programmer drives a byte on each of its two
 * output lines (SDI, the data line, and SII, the instruction line) as the
 * byte shifted left by two inside an 11-bit frame, most significant bit
 * first, and samples the target's SDO line once per bit. The byte it reports
 * is the 11-bit accumulator shifted right by two and cut to 8 bits.
 */
module Frames {

  /** Clock cycles in one transfer. */
  const FrameLength: nat := 11

  /**
   * The 16-bit value 1 << j, as a table. The bit tests of the clock loop
   * use it instead of a shift by a variable amount, which the solver
   * handles far more slowly; MaskIsShift shows the two agree.
   */
  function Mask(j: nat): bv16
    requires j < 16
  {
    if j == 0 then 0x0001 else if j == 1 then 0x0002 else if j == 2 then 0x0004
    else if j == 3 then 0x0008 else if j == 4 then 0x0010 else if j == 5 then 0x0020
    else if j == 6 then 0x0040 else if j == 7 then 0x0080 else if j == 8 then 0x0100
    else if j == 9 then 0x0200 else if j == 10 then 0x0400 else if j == 11 then 0x0800
    else if j == 12 then 0x1000 else if j == 13 then 0x2000 else if j == 14 then 0x4000
    else 0x8000
  }

  /** The table agrees with the shift it stands for. */
  lemma MaskIsShift(j: nat)
    requires j < 16
    ensures Mask(j) == 1 << j
  {
  }

  /** Bit j of a 16-bit value. */
  predicate Bit16(x: bv16, j: nat)
    requires j < 16
  {
    x & Mask(j) != 0
  }

  /** Bit j of an 8-bit value. */
  predicate Bit8(b: bv8, j: nat)
    requires j < 8
  {
    Bit16(b as bv16, j)
  }

  /** Shifting b left by two moves its bit j - 2 to bit j and clears the rest. */
  lemma ShiftedBit(b: bv8, j: nat)
    requires j < 16
    ensures Bit16((b as bv16) << 2, j) == (2 <= j < 10 && Bit8(b, j - 2))
  {
  }

  /** The accumulator after shifting one sample in at the bottom. */
  function ShiftIn(acc: bv16, sample: bool): bv16
  {
    (acc << 1) | (if sample then 1 else 0)
  }

  /** Shifting one sample in at the bottom moves every other bit up by one. */
  lemma ShiftInBit(acc: bv16, sample: bool, j: nat)
    requires j < 16
    ensures Bit16(ShiftIn(acc, sample), j) == if j == 0 then sample else Bit16(acc, j - 1)
  {
  }

  /** Bit k of the low byte of x >> 2 is bit k + 2 of x. */
  lemma TruncatedBit(x: bv16, k: nat)
    requires k < 8
    ensures Bit8(((x >> 2) & 0xFF) as bv8, k) == Bit16(x, k + 2)
  {
  }

  /** The eight bits of b, most significant first. */
  function MsbBits(b: bv8): (bits: seq<bool>)
    ensures |bits| == 8
  {
    seq(8, k requires 0 <= k < 8 => Bit8(b, 7 - k))
  }

  /** A byte is determined by its eight bits. */
  lemma MsbBitsInjective(a: bv8, b: bv8)
    requires MsbBits(a) == MsbBits(b)
    ensures a == b
  {
    forall j | 0 <= j < 8 ensures Bit8(a, j) == Bit8(b, j) {
      assert MsbBits(a)[7 - j] == MsbBits(b)[7 - j];
    }
    assert Bit8(a, 0) == Bit8(b, 0) && Bit8(a, 1) == Bit8(b, 1);
    assert Bit8(a, 2) == Bit8(b, 2) && Bit8(a, 3) == Bit8(b, 3);
    assert Bit8(a, 4) == Bit8(b, 4) && Bit8(a, 5) == Bit8(b, 5);
    assert Bit8(a, 6) == Bit8(b, 6) && Bit8(a, 7) == Bit8(b, 7);
  }

  /**
   * The levels driven on one output line during a transfer of b, in time
   * order: bit 10 - k of the 16-bit value b << 2 at clock cycle k.
   */
  function Frame(b: bv8): (f: seq<bool>)
    ensures |f| == FrameLength
  {
    var shifted := (b as bv16) << 2;
    seq(11, k requires 0 <= k < 11 => Bit16(shifted, 10 - k))
  }

  /** The frame is a low start bit, the byte most significant bit first, then two low bits. */
  lemma FrameLayout(b: bv8)
    ensures Frame(b) == [false] + MsbBits(b) + [false, false]
  {
    var f, g := Frame(b), [false] + MsbBits(b) + [false, false];
    forall k | 0 <= k < 11 ensures f[k] == g[k] {
      ShiftedBit(b, 10 - k);
      if 1 <= k < 9 {
        assert g[k] == MsbBits(b)[k - 1] == Bit8(b, 8 - k);
      }
    }
  }

  /**
   * The programmer's 16-bit accumulator after it has shifted in the given
   * samples, each one into the lowest bit.
   */
  function Accumulate(samples: seq<bool>): bv16
    requires |samples| <= 16
  {
    if samples == [] then 0
    else ShiftIn(Accumulate(samples[..|samples| - 1]), samples[|samples| - 1])
  }

  /**
   * Bit j of the accumulator holds the sample taken j samples before the
   * last one; bits above the number of samples are clear.
   */
  lemma {:induction false} AccumulateBit(samples: seq<bool>, j: nat)
    requires |samples| <= 16 && j < 16
    ensures Bit16(Accumulate(samples), j) == (j < |samples| && samples[|samples| - 1 - j])
  {
    if samples == [] {
      assert Accumulate(samples) == 0;
    } else {
      var n := |samples|;
      var front := samples[..n - 1];
      ShiftInBit(Accumulate(front), samples[n - 1], j);
      if j > 0 {
        AccumulateBit(front, j - 1);
        if j < n {
          assert front[n - 2 - (j - 1)] == samples[n - 1 - j];
        }
      }
    }
  }

  /** The byte the programmer reports for the 11 samples of one transfer. */
  function Response(samples: seq<bool>): bv8
    requires |samples| == FrameLength
  {
    ((Accumulate(samples) >> 2) & 0xFF) as bv8
  }

  /** Bit k of the low byte of x is bit k of x. */
  lemma LowByteBit(x: bv16, k: nat)
    requires k < 8
    ensures Bit8((x & 0xFF) as bv8, k) == Bit16(x, k)
  {
  }

  /** A 16-bit value whose upper eight bits are clear is its low byte. */
  lemma HighByteClear(x: bv16)
    requires forall j :: 8 <= j < 16 ==> !Bit16(x, j)
    ensures x == ((x & 0xFF) as bv8) as bv16
  {
    assert !Bit16(x, 8) && !Bit16(x, 9) && !Bit16(x, 10) && !Bit16(x, 11);
    assert !Bit16(x, 12) && !Bit16(x, 13) && !Bit16(x, 14) && !Bit16(x, 15);
  }

  /** Shifting the eight bits of a byte into the accumulator, most significant first, rebuilds the byte. */
  lemma AccumulateMsbBits(b: bv8)
    ensures Accumulate(MsbBits(b)) == b as bv16
  {
    var bits := MsbBits(b);
    var acc := Accumulate(bits);
    forall j | 8 <= j < 16 ensures !Bit16(acc, j) {
      AccumulateBit(bits, j);
    }
    HighByteClear(acc);
    var low := (acc & 0xFF) as bv8;
    forall k | 0 <= k < 8 ensures MsbBits(low)[k] == bits[k] {
      LowByteBit(acc, 7 - k);
      AccumulateBit(bits, 7 - k);
    }
    MsbBitsInjective(low, b);
  }

  /**
   * The reported byte, most significant bit first, is the second to the
   * ninth sample: the first sample and the last two never reach it.
   */
  lemma ResponseBits(samples: seq<bool>)
    requires |samples| == FrameLength
    ensures MsbBits(Response(samples)) == samples[1..9]
  {
    var acc := Accumulate(samples);
    var r := Response(samples);
    forall k | 0 <= k < 8 ensures MsbBits(r)[k] == samples[1..9][k] {
      TruncatedBit(acc, 7 - k);
      AccumulateBit(samples, 9 - k);
    }
  }

  /** Two sample runs that agree on samples 1 to 8 give the same byte. */
  lemma ResponseIgnoresSentinels(s: seq<bool>, t: seq<bool>)
    requires |s| == |t| == FrameLength
    requires s[1..9] == t[1..9]
    ensures Response(s) == Response(t)
  {
    ResponseBits(s);
    ResponseBits(t);
    MsbBitsInjective(Response(s), Response(t));
  }

  /** Reading back a frame as if it were samples gives the byte it carries. */
  lemma ResponseOfFrame(b: bv8)
    ensures Response(Frame(b)) == b
  {
    FrameLayout(b);
    ResponseBits(Frame(b));
    assert Frame(b)[1..9] == MsbBits(b);
    MsbBitsInjective(Response(Frame(b)), b);
  }

  /** The 11 levels the SDO line shows from its t-th sample on. */
  function Window(line: nat -> bool, t: nat): (w: seq<bool>)
    ensures |w| == FrameLength
  {
    seq(11, k requires 0 <= k < 11 => line(t + k))
  }

  /** The byte reported by a transfer whose first sample is the t-th. */
  function ResponseAt(line: nat -> bool, t: nat): bv8
  {
    Response(Window(line, t))
  }

  /** The accumulator after shifting in the n levels the line shows from its t-th sample on. */
  function AccumulateAt(line: nat -> bool, t: nat, n: nat): bv16
  {
    if n == 0 then 0 else ShiftIn(AccumulateAt(line, t, n - 1), line(t + n - 1))
  }

  /** Accumulating straight off the line is accumulating the first n samples of its window. */
  lemma {:induction false} AccumulateAtWindow(line: nat -> bool, t: nat, n: nat)
    requires n <= FrameLength
    ensures AccumulateAt(line, t, n) == Accumulate(Window(line, t)[..n])
  {
    var w := Window(line, t);
    if n > 0 {
      AccumulateAtWindow(line, t, n - 1);
      assert w[..n][..n - 1] == w[..n - 1];
    }
  }

  /** After the 11 samples of a transfer, the accumulator shifted right by two and cut to 8 bits is its response. */
  lemma AccumulateAtResponse(line: nat -> bool, t: nat)
    ensures ((AccumulateAt(line, t, FrameLength) >> 2) & 0xFF) as bv8 == ResponseAt(line, t)
  {
    AccumulateAtWindow(line, t, FrameLength);
    assert Window(line, t)[..FrameLength] == Window(line, t);
  }
}
