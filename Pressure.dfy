/** Pressure-period measurement: the 32-bit capture timestamp rebuilt from
    Timer Z1 and its overflow count, the plausibility window for the period
    between two transducer pulses, and the median of the three-slot ring
    (wilo.c:675-700). */
module Pressure {
  import opened Word

  /** Shortest and longest accepted pulse period, in Timer Z1 counts. */
  const MIN_PERIOD := 23500
  const MAX_PERIOD := 110000
  /** Slots of the `pRaw` ring. */
  const RING := 3
  /** Largest raw period that can enter the ring: MAX_PERIOD >> 6. */
  const MAX_RAW := 1718

  /** `pHighWord` after line 678: one more when the overflow flag was pending
      while the low word had already wrapped (bit 15 clear). */
  function CorrectedHighWord(lowWord: u16, highWord: u16, ovf: bool): u16
  {
    if ovf && lowWord < 0x8000 then Wrap16(highWord + 1) else highWord
  }

  /** `tmpNow = pLowWord + ((uint32_t) pHighWord << 16)` after the correction. */
  function CaptureTime(lowWord: u16, highWord: u16, ovf: bool): (r: u32)
    // the timestamp is low + 2^16 * (high + correction), modulo 2^32
    ensures r == Wrap32(lowWord + 0x1_0000 * (highWord + (if ovf && lowWord < 0x8000 then 1 else 0)))
    // and it splits back into the captured low word and the corrected high word
    ensures r % 0x1_0000 == lowWord && r / 0x1_0000 == CorrectedHighWord(lowWord, highWord, ovf)
  {
    var h := CorrectedHighWord(lowWord, highWord, ovf);
    assert lowWord + 0x1_0000 * h == Wrap32(lowWord + 0x1_0000 * (highWord + (if ovf && lowWord < 0x8000 then 1 else 0))) by {
      if ovf && lowWord < 0x8000 && highWord == 0xFFFF {
        Wrap32Mod(lowWord, 1);
      }
    }
    lowWord + 0x1_0000 * h
  }

  /** The period between two captures, in 32-bit unsigned arithmetic. */
  function Period(now: u32, last: u32): (r: u32)
    ensures last <= now ==> r == now - last
    ensures now < last ==> r == now - last + 0x1_0000_0000
  {
    Wrap32(now - last)
  }

  /** A period is accepted when it is neither too short (noise) nor too long (stall). */
  predicate Plausible(period: u32)
  {
    MIN_PERIOD <= period <= MAX_PERIOD
  }

  /** `tmpDiff >> 6`: the value stored in the ring. */
  function RawPeriod(period: u32): (r: u16)
    requires Plausible(period)
    ensures 367 <= r <= MAX_RAW
    ensures 64 * r <= period < 64 * r + 64
  {
    period / 64
  }

  /** The filter of lines 687-697: slot 0 if it lies between the other two,
      otherwise slot 1 if it does, otherwise slot 2. */
  function Median3(a: int, b: int, c: int): (r: int)
    ensures r == a || r == b || r == c
    // at least two of the three samples are <= r and at least two are >= r
    ensures (if a <= r then 1 else 0) + (if b <= r then 1 else 0) + (if c <= r then 1 else 0) >= 2
    ensures (if a >= r then 1 else 0) + (if b >= r then 1 else 0) + (if c >= r then 1 else 0) >= 2
  {
    if (a >= b && a <= c) || (a <= b && a >= c) then a
    else if (b >= a && b <= c) || (b <= a && b >= c) then b
    else c
  }

  /** Independent reference: the middle element of the three in sorted order. */
  function Middle(a: int, b: int, c: int): int
  {
    var lo := if a <= b then a else b;
    var hi := if a <= b then b else a;
    if c <= lo then lo else if c >= hi then hi else c
  }

  /** The filter selects the middle value, whatever the order of the slots. */
  lemma Median3IsMiddle(a: int, b: int, c: int)
    ensures Median3(a, b, c) == Middle(a, b, c)
    ensures Median3(a, b, c) == Median3(b, c, a) == Median3(c, a, b)
    ensures Median3(a, b, c) == Median3(b, a, c)
  {
  }

  /** Ties go to the lowest slot: slot 0 whenever it is a middle value,
      slot 1 only when slot 0 is not. */
  lemma Median3SlotChoice(a: int, b: int, c: int)
    ensures (b <= a <= c || c <= a <= b) ==> Median3(a, b, c) == a
    ensures !(b <= a <= c || c <= a <= b) && (a <= b <= c || c <= b <= a) ==> Median3(a, b, c) == b
  {
  }

  /** The median of values inside [lo, hi] is inside [lo, hi]: pAct stays a
      plausible raw period (or 0 before the ring has been filled). */
  lemma Median3Bounded(a: int, b: int, c: int, lo: int, hi: int)
    requires lo <= a <= hi && lo <= b <= hi && lo <= c <= hi
    ensures lo <= Median3(a, b, c) <= hi
  {
  }
}
