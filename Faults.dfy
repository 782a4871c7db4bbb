/** The fault bits and the per-bit rule of `checkFaults` (wilo.c:702-739):
    a debounced bit is set and re-stamped on every call where its condition
    holds, and cleared only on a call where the condition is false and more
    than QUIET_WINDOW ticks have passed since its stamp. */
module Faults {
  import opened Word

  const FAULT_SHORT: bv16 := 0x01
  const FAULT_PRESSURE: bv16 := 0x02
  const FAULT_UV: bv16 := 0x04
  const FAULT_OV: bv16 := 0x08
  const FAULT_OC: bv16 := 0x10
  const FAULT_XTAL: bv16 := 0x20
  const FAULT_TEMP: bv16 := 0x40
  /** The bits `checkFaults` may change. */
  const CHECKED_BITS: bv16 := 0x7E

  /** Ticks a cleared condition must stay quiet before its bit is cleared. */
  const QUIET_WINDOW := 1000
  /** Ticks without an accepted pressure sample before the sensor is declared dead. */
  const PRESSURE_TIMEOUT := 50

  predicate Has(mask: bv16, bit: bv16)
  {
    mask & bit != 0
  }

  /** One debounced bit after one call. */
  function DebouncedBit(wasSet: bool, condition: bool, sinceStamp: u16): (isSet: bool)
    ensures condition ==> isSet
    ensures !condition && !wasSet ==> !isSet
    ensures !condition && wasSet ==> (isSet <==> sinceStamp <= QUIET_WINDOW)
  {
    if condition then true
    else if wasSet && sinceStamp > QUIET_WINDOW then false
    else wasSet
  }

  /** The stamp of a debounced bit after one call at tick `now`. */
  function NewStamp(condition: bool, stamp: u16, now: u16): u16
  {
    if condition then now else stamp
  }

  /** `f` and `g` agree on every bit except possibly `except`: bit by bit on
      the seven fault bits, and on the unused upper nine bits as a whole. */
  predicate Agree(f: bv16, g: bv16, except: bv16)
  {
    (except != 0x01 ==> Has(f, 0x01) == Has(g, 0x01))
    && (except != 0x02 ==> Has(f, 0x02) == Has(g, 0x02))
    && (except != 0x04 ==> Has(f, 0x04) == Has(g, 0x04))
    && (except != 0x08 ==> Has(f, 0x08) == Has(g, 0x08))
    && (except != 0x10 ==> Has(f, 0x10) == Has(g, 0x10))
    && (except != 0x20 ==> Has(f, 0x20) == Has(g, 0x20))
    && (except != 0x40 ==> Has(f, 0x40) == Has(g, 0x40))
    && f >> 7 == g >> 7
  }

  /** The bits `checkFaults` debounces: pressure (0x02), undervoltage
      (0x04), overvoltage (0x08), temperature (0x40). From here on the fault
      bits are written by value. */
  predicate Debounced(bit: bv16)
  {
    bit == 0x02 || bit == 0x04 || bit == 0x08 || bit == 0x40
  }

  /** The bits `checkFaults` latches: overcurrent (0x10) and oscillator
      failure (0x20). */
  predicate Latched(bit: bv16)
  {
    bit == 0x10 || bit == 0x20
  }

  /** Setting one fault bit leaves the others alone. */
  lemma SetOne(mask: bv16, bit: bv16)
    requires bit == 0x02 || bit == 0x04 || bit == 0x08 || bit == 0x10 || bit == 0x20 || bit == 0x40
    ensures Has(mask | bit, bit) && Agree(mask | bit, mask, bit)
  {
    SetKeeps(mask, bit, 0x01);
    if bit != 0x02 { SetKeeps(mask, bit, 0x02); }
    if bit != 0x04 { SetKeeps(mask, bit, 0x04); }
    if bit != 0x08 { SetKeeps(mask, bit, 0x08); }
    if bit != 0x10 { SetKeeps(mask, bit, 0x10); }
    if bit != 0x20 { SetKeeps(mask, bit, 0x20); }
    if bit != 0x40 { SetKeeps(mask, bit, 0x40); }
  }

  /** Setting one fault bit keeps another fault bit, and the upper bits. */
  lemma SetKeeps(mask: bv16, bit: bv16, other: bv16)
    requires bit == 0x02 || bit == 0x04 || bit == 0x08 || bit == 0x10 || bit == 0x20 || bit == 0x40
    requires other == 0x01 || other == 0x02 || other == 0x04 || other == 0x08 || other == 0x10 || other == 0x20 || other == 0x40
    requires other != bit
    ensures Has(mask | bit, other) == Has(mask, other)
    ensures (mask | bit) >> 7 == mask >> 7
  {
  }

  /** Clearing one fault bit leaves the others alone. */
  lemma ClearOne(mask: bv16, bit: bv16)
    requires bit == 0x02 || bit == 0x04 || bit == 0x08 || bit == 0x10 || bit == 0x20 || bit == 0x40
    ensures !Has(mask & !bit, bit) && Agree(mask & !bit, mask, bit)
  {
  }

  /** One debounced bit of `checkFaults` on the whole mask: `fault |= bit`
      when the condition holds, `fault &= ~bit` when it does not and the bit
      is set and its stamp is more than QUIET_WINDOW ticks old. */
  method DebounceStep(mask: bv16, bit: bv16, condition: bool, sinceStamp: u16) returns (r: bv16)
    requires Debounced(bit)
    ensures Has(r, bit) == DebouncedBit(Has(mask, bit), condition, sinceStamp)
    ensures Agree(r, mask, bit)
  {
    r := mask;
    if condition {
      SetOne(mask, bit);
      r := r | bit;
    } else if Has(r, bit) && sinceStamp > QUIET_WINDOW {
      ClearOne(mask, bit);
      r := r & !bit;
    }
  }

  /** One latched bit of `checkFaults`: `fault |= bit` when the condition
      holds; nothing here clears it. */
  method LatchStep(mask: bv16, bit: bv16, condition: bool) returns (r: bv16)
    requires Latched(bit)
    ensures Has(r, bit) <==> Has(mask, bit) || condition
    ensures Agree(r, mask, bit)
  {
    r := mask;
    if condition {
      SetOne(mask, bit);
      r := r | bit;
    }
  }

  /** The new fault mask `r` of one `checkFaults` call from `mask`, given the
      six conditions and the ages of the four stamps: the four debounced bits
      (pressure, undervoltage, overvoltage, temperature) follow
      `DebouncedBit`, the two latched bits (overcurrent, oscillator) are set
      by their conditions, and no other bit changes. */
  predicate MaskUpdate(mask: bv16, r: bv16, lost: bool, under: bool, over: bool, hot: bool, overCurrent: bool, oscillatorOk: bool,
                       sincePres: u16, sinceUv: u16, sinceOv: u16, sinceTemp: u16)
  {
    Has(r, 0x02) == DebouncedBit(Has(mask, 0x02), lost, sincePres)
    && Has(r, 0x04) == DebouncedBit(Has(mask, 0x04), under, sinceUv)
    && Has(r, 0x08) == DebouncedBit(Has(mask, 0x08), over, sinceOv)
    && Has(r, 0x40) == DebouncedBit(Has(mask, 0x40), hot, sinceTemp)
    && (Has(r, 0x10) <==> Has(mask, 0x10) || overCurrent)
    && (Has(r, 0x20) <==> Has(mask, 0x20) || !oscillatorOk)
    && Has(r, 0x01) == Has(mask, 0x01) && r >> 7 == mask >> 7
  }

  /** One `checkFaults` call on the mask. */
  method CheckMask(mask: bv16, lost: bool, under: bool, over: bool, hot: bool, overCurrent: bool, oscillatorOk: bool,
                   sincePres: u16, sinceUv: u16, sinceOv: u16, sinceTemp: u16) returns (r: bv16)
    ensures MaskUpdate(mask, r, lost, under, over, hot, overCurrent, oscillatorOk, sincePres, sinceUv, sinceOv, sinceTemp)
  {
    r := DebounceAll(mask, lost, under, over, hot, sincePres, sinceUv, sinceOv, sinceTemp);
    r := LatchStep(r, 0x10, overCurrent);
    r := LatchStep(r, 0x20, !oscillatorOk);
  }

  /** The four debounced bits of one `checkFaults` call. */
  method DebounceAll(mask: bv16, lost: bool, under: bool, over: bool, hot: bool,
                     sincePres: u16, sinceUv: u16, sinceOv: u16, sinceTemp: u16) returns (r: bv16)
    ensures Has(r, 0x02) == DebouncedBit(Has(mask, 0x02), lost, sincePres)
    ensures Has(r, 0x04) == DebouncedBit(Has(mask, 0x04), under, sinceUv)
    ensures Has(r, 0x08) == DebouncedBit(Has(mask, 0x08), over, sinceOv)
    ensures Has(r, 0x40) == DebouncedBit(Has(mask, 0x40), hot, sinceTemp)
    ensures Has(r, 0x10) == Has(mask, 0x10) && Has(r, 0x20) == Has(mask, 0x20)
    ensures Has(r, 0x01) == Has(mask, 0x01) && r >> 7 == mask >> 7
  {
    r := DebounceStep(mask, 0x02, lost, sincePres);
    r := DebounceStep(r, 0x04, under, sinceUv);
    r := DebounceStep(r, 0x08, over, sinceOv);
    r := DebounceStep(r, 0x40, hot, sinceTemp);
  }

  /** One call of `checkFaults` as seen by one debounced bit, at an absolute
      (unwrapped) tick `now`; the firmware's counters hold `now` modulo 2^16. */
  datatype Check = Check(now: int, condition: bool)

  /** The bit and the absolute tick of its stamp after a sequence of calls. */
  function RunChecks(isSet: bool, stamp: int, trace: seq<Check>): (bool, int)
    decreases |trace|
  {
    if trace == [] then (isSet, stamp)
    else
      var c := trace[0];
      var isSet' := DebouncedBit(isSet, c.condition, Elapsed(Wrap16(c.now), Wrap16(stamp)));
      var stamp' := if c.condition then c.now else stamp;
      RunChecks(isSet', stamp', trace[1..])
  }

  /** Calls happen at non-decreasing ticks. */
  predicate Ordered(trace: seq<Check>)
  {
    forall i, j :: 0 <= i < j < |trace| ==> trace[i].now <= trace[j].now
  }

  /** The 16-bit difference of two wrapped counters is the true difference
      while less than one full wrap has passed. */
  lemma ElapsedOfWrapped(now: int, since: int)
    requires since <= now < since + 0x1_0000
    ensures Elapsed(Wrap16(now), Wrap16(since)) == now - since
  {
    var k1, k2 := now / 0x1_0000, since / 0x1_0000;
    assert now == Wrap16(now) + 0x1_0000 * k1;
    assert since == Wrap16(since) + 0x1_0000 * k2;
  }

  /** Generalised form: a set bit stamped at or after `t0` that is clear after
      the calls was cleared at a call at least QUIET_WINDOW + 1 ticks after `t0`. */
  lemma {:induction false} ClearOnlyAfterWindow(stamp: int, trace: seq<Check>, t0: int)
    requires t0 <= stamp
    requires Ordered(trace) && trace != []
    requires stamp <= trace[0].now && trace[|trace| - 1].now < t0 + 0x1_0000
    requires !RunChecks(true, stamp, trace).0
    ensures trace[|trace| - 1].now >= t0 + QUIET_WINDOW + 1
    decreases |trace|
  {
    var c := trace[0];
    assert c.now <= trace[|trace| - 1].now;
    ElapsedOfWrapped(c.now, stamp);
    var isSet' := DebouncedBit(true, c.condition, Elapsed(Wrap16(c.now), Wrap16(stamp)));
    var stamp' := if c.condition then c.now else stamp;
    if !isSet' {
      // cleared right here: the quiet window has passed since a stamp >= t0
      assert c.now - stamp > QUIET_WINDOW;
    } else if |trace| == 1 {
      assert false;
    } else {
      assert trace[1..][0] == trace[1];
      assert trace[1..][|trace[1..]| - 1] == trace[|trace| - 1];
      assert trace[0].now <= trace[1].now;
      ClearOnlyAfterWindow(stamp', trace[1..], t0);
    }
  }

  /** A condition true at tick T keeps its bit set through tick T + 1000:
      if the bit is clear after a later call (less than one counter wrap
      after T), that call happened at T + 1001 or later. */
  lemma FaultHoldsQuietWindow(isSet: bool, stamp: int, trace: seq<Check>)
    requires Ordered(trace) && |trace| >= 2 && trace[0].condition
    requires trace[|trace| - 1].now < trace[0].now + 0x1_0000
    requires !RunChecks(isSet, stamp, trace).0
    ensures trace[|trace| - 1].now >= trace[0].now + QUIET_WINDOW + 1
  {
    var t0 := trace[0].now;
    var isSet' := DebouncedBit(isSet, true, Elapsed(Wrap16(t0), Wrap16(stamp)));
    assert isSet';
    assert RunChecks(isSet, stamp, trace) == RunChecks(true, t0, trace[1..]);
    assert trace[1..][|trace[1..]| - 1] == trace[|trace| - 1];
    assert t0 <= trace[1].now;
    ClearOnlyAfterWindow(t0, trace[1..], t0);
  }
}
