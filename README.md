# HVSP fuse eraser for ATtiny parts

A model of an Arduino sketch that resets the fuses of an ATtiny to their
factory values over High-Voltage Serial Programming (HVSP). It can also
erase the flash and lock bits, or only read the fuses and lock bits. The
sketch drives the target's SDI (data), SII (instruction), SCI (clock),
VCC and RST pins and samples its SDO pin.

The hardware is seen through two things:

- the pin activity the programmer produces, as a trace of `Drive(pin, level)`
  events and `Sample` markers (one per read of SDO inside a transfer's
  clock loop);
- the levels the target shows on SDO, as a function `sdo: nat -> bool`
  giving the level seen at the k-th sample. The model makes no assumption
  about it.

Modules:

- `Frames`: the bit layout of one 11-bit transfer.
  - Each output byte is shifted left by two and sent most significant bit
    first: a low start bit, the byte, then two low bits.
  - The 11 SDO samples are shifted into a 16-bit accumulator.
  - The reported byte is the accumulator shifted right by two and cut to 8 bits.
- `Trace`: pin events, one clock cycle, one transfer (`Txn(value, address)`),
  runs of transfers, and decoding a trace back into its transfers.
- `Commands`: the HVSP constants of the sketch and the transfer sequences of
  each routine: signature read, fuse read, lock read, erase and fuse write.
  It also holds the signature arithmetic and the lock-bit decode.
- `Session`: what the main loop does for a given mode character and
  signature. It covers the operations in order, the fuse writes chosen by
  signature, and the power-down.
- `Programmer`: the class `HvProgrammer` with the routines of the sketch as
  methods that append to `trace` and advance `sampled`. Each method is proved
  against the functions of `Commands` and `Session`. `RunSession` is one pass
  of the main loop after the target is powered up.

## Model

| member | source | states |
|---|---|---|
| Programmer.HvProgrammer.ShiftOut | src/HVProgrammer.cpp:209-233 | one transfer appends exactly the 11 clock cycles of the value and address frames to the trace, consumes 11 SDO samples, and returns the byte carried by samples 1 to 8 of them |
| Programmer.HvProgrammer.ClockFrame | src/HVProgrammer.cpp:219-229 | the loop from bit 10 down to bit 0 drives SDI and SII, shifts SDO into the 16-bit accumulator and pulses SCI; the accumulator shifted right by two and cut to 8 bits is the response |
| Programmer.HvProgrammer.ReadSignature | src/HVProgrammer.cpp:326-338 | reads signature bytes 1 and 2 (never 0) in eight transfers; the 16-bit shift-and-add result is byte 1 high and byte 2 low |
| Programmer.HvProgrammer.ReadSignatureByte | src/HVProgrammer.cpp:330-333 | one round of the signature loop is the four transfers of that index; the byte is the response to the fourth |
| Programmer.HvProgrammer.ReadByte | src/HVProgrammer.cpp:306-308 | a fuse or lock read is a read-mode select then the two strobes; the byte is the response to the last strobe |
| Programmer.HvProgrammer.ReadFuses | src/HVProgrammer.cpp:301-324 | reads the low, high and extended fuse in that order with the sketch's strobes; each value is the response to that fuse's last transfer |
| Programmer.HvProgrammer.ReadLockBits | src/HVProgrammer.cpp:236-267 | reads the lock byte in three transfers and reports LB1 and LB2 as programmed exactly when bit 0 and bit 1 read 0 |
| Programmer.HvProgrammer.EraseFlashAndLockBits | src/HVProgrammer.cpp:269-285 | the erase is the chip-erase select and its two strobes, and nothing else |
| Programmer.HvProgrammer.WriteFuse | src/HVProgrammer.cpp:287-299 | a fuse write is the write select, the value on SDI, then the selector's high byte and low byte on SII |
| Programmer.HvProgrammer.PowerDown | src/HVProgrammer.cpp:187-189 | clock low, VCC off, 12 V off, and no sample taken |
| Programmer.HvProgrammer.RunSession | src/HVProgrammer.cpp:124-189 | a session's pin activity is the signature read, then the operations `SessionOps` chooses from the mode and the signature read, then the power-down; its signature is the big-endian word of the two bytes read |
| Programmer.HvProgrammer.ReadFusesAndLockBits | src/HVProgrammer.cpp:129-130 | the fuse read is followed by the lock read |
| Programmer.HvProgrammer.WriteDefaultFuses | src/HVProgrammer.cpp:136-180 | the ATtiny13 gets LFUSE 0x6A and HFUSE 0xFF; the six other parts get LFUSE 0x62, HFUSE 0xDF and EFUSE 0xFF; erase and read modes and unknown parts get no write |
| Programmer.HvProgrammer.WriteTiny13Defaults | src/HVProgrammer.cpp:139-145 | writes LFUSE 0x6A then HFUSE 0xFF, which is the ATtiny13 entry of the default table |
| Programmer.HvProgrammer.WriteTinyX4X5Defaults | src/HVProgrammer.cpp:163-170 | writes LFUSE 0x62, HFUSE 0xDF, then EFUSE 0xFF, which is the entry of the six other parts |
| Frames.MaskIsShift | src/HVProgrammer.cpp:222-223 | the bit-test table agrees with `1 << i` |
| Frames.FrameLayout | src/HVProgrammer.cpp:219-223 | the levels driven for a byte shifted left by two, bit 10 first, are a low start bit, the byte MSB first, then two low bits |
| Frames.AccumulateBit | src/HVProgrammer.cpp:224-225 | after shifting in samples, bit j of the accumulator is the sample taken j samples before the last one, and higher bits are clear |
| Frames.ResponseBits | src/HVProgrammer.cpp:229 | the returned byte, MSB first, is samples 1 to 8; the first and the last two samples are dropped |
| Frames.ResponseIgnoresSentinels | src/HVProgrammer.cpp:229 | two sample runs that agree on samples 1 to 8 give the same byte |
| Frames.ResponseOfFrame | src/HVProgrammer.cpp:219-229 | reading a frame back as samples gives the byte sent: the output framing and the input decoding are inverse |
| Frames.AccumulateMsbBits | src/HVProgrammer.cpp:224-225 | shifting a byte's bits into the accumulator most significant first, as the read loop does, rebuilds the byte |
| Frames.MsbBitsInjective | src/HVProgrammer.cpp:229 | a byte is determined by its eight bits |
| Frames.AccumulateAtWindow | src/HVProgrammer.cpp:224-225 | shifting in levels straight off SDO is shifting in that transfer's sample window |
| Frames.AccumulateAtResponse | src/HVProgrammer.cpp:229 | after 11 samples the accumulator, shifted right by two and cut to 8 bits, is the response of that window |
| Trace.CyclesAt | src/HVProgrammer.cpp:221-228 | clock cycle k of a transfer occupies events 5k to 5k+4 |
| Trace.CyclesCount | src/HVProgrammer.cpp:221-228 | n cycles hold exactly n samples, n clock rises and n clock falls |
| Trace.CycleTraceIsCycles | src/HVProgrammer.cpp:221-228 | a transfer is the 11 clock cycles that drive its two frames |
| Trace.CycleTraceShape | src/HVProgrammer.cpp:221-228 | in cycle k SDI and SII carry frame bit k, SDO is sampled once, then the clock pulses; 11 samples and 11 pulses per transfer |
| Trace.TxnsTraceAppend | src/HVProgrammer.cpp:209-233 | the pin activity of two runs of transfers is their concatenation |
| Trace.CycleTraceLevels | src/HVProgrammer.cpp:222-223 | the first event of each cycle drives SDI to the value's frame bit and the second drives SII to the address's frame bit |
| Trace.DecodeCycleTrace | src/HVProgrammer.cpp:219-223 | a listener on SDI and SII recovers the value and address of a transfer from its pin activity |
| Trace.DecodeTxnsTrace | src/HVProgrammer.cpp:209-233 | the pin activity of a run of transfers determines the run, order included |
| Commands.Join | src/HVProgrammer.cpp:334 | the 16-bit word of two bytes has the first as high byte and the second as low byte, and is hi * 256 + lo in 16-bit arithmetic |
| Commands.SignatureTxnsShape | src/HVProgrammer.cpp:329-335 | the signature read is eight transfers, index 1 then index 2, and never loads index 0 |
| Commands.SignatureFoldIsBigEndian | src/HVProgrammer.cpp:327-337 | the loop's 16-bit shift-and-add over the two bytes read yields byte 1 high and byte 2 low |
| Commands.DecodeLock | src/HVProgrammer.cpp:249-256 | LB1 is programmed exactly when bit 0 of the lock byte is 0, LB2 exactly when bit 1 is 0 |
| Commands.DecodeLockLowBits | src/HVProgrammer.cpp:246-256 | only the two low bits of the lock byte matter; 0x03 reads as both unprogrammed and 0x00 as both programmed |
| Commands.WriteFuseRoundTrip | src/HVProgrammer.cpp:287-299 | a device that reads the four write transfers recovers the fuse selector and the value, so the selector is sent high byte first and in full |
| Session.DefaultFuses | src/HVProgrammer.cpp:44-55 | a table entry exists exactly for the seven recognised signatures; it starts with LFUSE then HFUSE, has three entries, the third being EFUSE, for every part but the ATtiny13, which has two |
| Session.WriteOps | src/HVProgrammer.cpp:139-170 | one fuse-write operation per table entry, in table order |
| Session.SessionOpsLayout | src/HVProgrammer.cpp:129-185 | the position of each operation of a session: the first reads, the erase, the writes in order, then the verification reads |
| Session.PlanAppend | src/HVProgrammer.cpp:129-185 | the transfers of two runs of operations are the transfers of each, in order |
| Session.FuseWritesOfSession | src/HVProgrammer.cpp:132-170 | the fuse writes a session issues are exactly those its mode and signature call for |
| Session.SessionFuseWrites | src/HVProgrammer.cpp:136-170 | fuses are written only in write mode and only to a recognised part, and then exactly that part's defaults in table order |
| Session.SessionErase | src/HVProgrammer.cpp:132-134 | a session erases exactly when the mode is 'e' or 'E', whatever the signature, right after the first fuse and lock reads |
| Session.SessionReads | src/HVProgrammer.cpp:129-130 | fuses and lock bits are always read first; they are read again last exactly when the mode is not 'r' or 'R'; a read-only session does nothing else |
| Session.SessionPowersDown | src/HVProgrammer.cpp:181-189 | every session ends with SCI low, VCC off and RST high (12 V off), on every branch including an unknown signature |
| Session.PoweredDown | src/HVProgrammer.cpp:187-189 | after the power-down events the last level driven on SCI, VCC and RST is low, low and high |
| Session.EraseAttiny85 | src/HVProgrammer.cpp:129-185 | erasing an ATtiny85 reads, erases, writes no fuse, then reads again |
| Session.UnknownPartIsOnlyRead | src/HVProgrammer.cpp:171-185 | an unrecognised part in write mode gets no fuse write but is still read twice |

## Left out

- Serial output is left out: prompts, the signature print, the fuse and lock
  values and the LB1/LB2 messages. `ReadFuses` and `ReadLockBits` return
  the values they would print. `RunSession` does not collect them.
- RunSession: states the pin activity and the signature but not the fuse and
  lock values each read reports along the way; each read's value is stated by
  `ReadFuses` and `ReadLockBits` on their own.
- The mode character that `loop` reads (src/HVProgrammer.cpp:96-102) is
  the parameter `mode` of `RunSession`. A button press with no character
  folds into it: `Serial.read()` then returns -1, which is none of e, E, r
  and R, so it selects write mode like any other character (the model can
  take the character 0xFF for it). Draining the serial buffer
  (src/HVProgrammer.cpp:104-108) and the LED writes (src/HVProgrammer.cpp:111
  and 193) are left out.
- The power-up sequence before the signature read (pin modes and the
  VCC/RST timing) is left out; the power-down after the session is modelled.
- Delays, and the `millis()` polls that wait for SDO to go high, are left
  out. A poll uses the level it reads only to decide when to stop waiting.
  It drives no pin and its reads are not shifted into any value, so it
  changes neither a result nor the pin writes. The `sdo` function numbers
  only the samples taken inside a transfer's clock loop.
- `setup()`, and the wait for the button release on an unknown signature,
  are left out (serial and pin I/O only).
- The statements after `return` in `shiftOut` are dead code and are not
  modelled.
- What the target does with the transfers is left out. The target's
  replies enter only as the `sdo` function, so the model states what the
  programmer sends and how it decodes what it samples, not that a real
  part ends up with the written fuses.
- `ReadByte`, `ReadSignatureByte`, `ClockFrame`, `ReadFusesAndLockBits`,
  `WriteDefaultFuses`, `WriteTiny13Defaults` and `WriteTinyX4X5Defaults`
  split the sketch's routines into smaller methods. Together they make the
  same calls with the same arguments in the same order.
