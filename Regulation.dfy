/** The integer arithmetic of the pressure regulator `regVfd` and of the
    start/stop gate of the main loop (wilo.c:594-616, 1097-1099).
    On the target `int` is 16 bits wide, so `int16_t + uint16_t` is computed
    unsigned and a comparison between an `int16_t` and a `uint16_t` is an
    unsigned comparison; both are written out here. */
module Regulation {
  import opened Word

  /** Line 602: the drive should run when the pressure is below the ON
      threshold, or when it is already regulating and the stop delay has not
      run out since `tOn`, or when the flow switch reports flow. */
  predicate WantsToRun(pAct: int, pOn: int, regOn: bool, sinceOn: u16, stopDelay: u16, flow: bool)
  {
    pAct < pOn || (regOn && sinceOn < stopDelay) || flow
  }

  /** Line 603: `tOn` is refreshed on entry to regulation, while the pressure
      is below the OFF threshold, or while there is flow. */
  predicate RefreshesOnTime(regOn: bool, pAct: int, pOff: int, flow: bool)
  {
    !regOn || pAct < pOff || flow
  }

  /** Line 607: `((pOff - pAct) >> 2) + baseFreq` assigned to an `int16_t`.
      The difference is a 16-bit signed value, the shift is arithmetic and
      the addition of the `uint16_t` base frequency is done modulo 2^16. */
  function ProportionalRequest(pOff: i16, pAct: i16, baseFreq: u16): (r: i16)
    // inside the 16-bit range the result is the plain proportional law:
    // a quarter of the pressure error (rounded down) on top of the base frequency
    ensures -0x8000 <= pOff - pAct < 0x8000 && -0x8000 <= (pOff - pAct) / 4 + baseFreq < 0x8000
      ==> r == (pOff - pAct) / 4 + baseFreq
    // the request falls as the pressure rises
    ensures -0x8000 <= pOff - pAct < 0x8000 && -0x8000 <= (pOff - pAct) / 4 + baseFreq < 0x8000
      ==> (pAct <= pOff ==> r >= baseFreq) && (pAct >= pOff ==> r <= baseFreq)
  {
    var diff := ToInt16(Wrap16(pOff - pAct));
    ToInt16(Wrap16(diff / 4 + baseFreq))
  }

  /** Lines 612-614: raise to `minFreq` while regulating, zero a negative
      value, cap at `maxFreq`; the result is stored in the `uint16_t` reqFreq. */
  function ClampRequest(tmp: i16, regOn: bool, minFreq: u16, maxFreq: u16): (r: u16)
    ensures r <= maxFreq
    // a value already inside the window passes unchanged
    ensures 0 <= tmp <= maxFreq && (!regOn || minFreq <= tmp) ==> r == tmp
    // while regulating, a non-negative request is raised to the minimum
    ensures regOn && 0 <= tmp && minFreq <= maxFreq && minFreq < 0x8000 ==> minFreq <= r
    // a zero request of a stopped regulator stays zero
    ensures !regOn && tmp == 0 ==> r == 0
  {
    var t1: i16 := if regOn && Wrap16(tmp) < minFreq then ToInt16(minFreq) else tmp;
    var t2: i16 := if t1 < 0 then 0 else t1;
    var t3: i16 := if Wrap16(t2) > maxFreq then ToInt16(maxFreq) else t2;
    Wrap16(t3)
  }

  /** The comparison `tmp < minFreq` of line 612 is unsigned, so a negative
      proportional request is not raised to `minFreq`; line 613 zeroes it. */
  lemma NegativeRequestIsZeroed(tmp: i16, minFreq: u16, maxFreq: u16)
    requires tmp < 0 && minFreq <= 0x8000
    ensures ClampRequest(tmp, true, minFreq, maxFreq) == 0
  {
  }

  /** While regulating, the request is zero, not `minFreq`, exactly when the
      pressure reading exceeds the OFF threshold by more than four times the
      base frequency; below that it is at least `minFreq`. The ranges keep
      the 16-bit arithmetic from wrapping; the raw readings lie in 367..1718. */
  lemma HighPressureDropsToZero(pOff: i16, pAct: i16, baseFreq: u16, minFreq: u16, maxFreq: u16)
    requires 0 <= pOff <= 0x4000 && 0 <= pAct <= 0x4000 && baseFreq < 0x1000
    requires 0 < minFreq <= maxFreq && minFreq < 0x8000
    ensures var r := ClampRequest(ProportionalRequest(pOff, pAct, baseFreq), true, minFreq, maxFreq);
      (r == 0 <==> pAct - pOff > 4 * baseFreq) && (r != 0 ==> minFreq <= r)
  {
    var tmp := ProportionalRequest(pOff, pAct, baseFreq);
    assert tmp == (pOff - pAct) / 4 + baseFreq;
    if pAct - pOff > 4 * baseFreq {
      assert tmp < 0;
      NegativeRequestIsZeroed(tmp, minFreq, maxFreq);
    } else {
      assert tmp >= 0;
    }
  }

  /** Line 1098: start the bridge when stopped and the request exceeds the
      stop frequency. */
  predicate ShouldStart(vfdRun: bool, reqFreq: u16, stopFreq: u16)
  {
    !vfdRun && reqFreq > stopFreq
  }

  /** Line 1099: stop it when running and both the request and the actual
      frequency have fallen to the stop frequency or below. */
  predicate ShouldStop(vfdRun: bool, reqFreq: u16, freq: u16, stopFreq: u16)
  {
    vfdRun && reqFreq <= stopFreq && freq <= stopFreq
  }

  /** The gate has hysteresis: the two decisions exclude each other, a request
      above the stop frequency never stops a running bridge, and a running
      bridge is not stopped while the ramp is still above the stop frequency. */
  lemma StartStopHysteresis(vfdRun: bool, reqFreq: u16, freq: u16, stopFreq: u16)
    ensures !(ShouldStart(vfdRun, reqFreq, stopFreq) && ShouldStop(vfdRun, reqFreq, freq, stopFreq))
    ensures reqFreq > stopFreq ==> !ShouldStop(vfdRun, reqFreq, freq, stopFreq)
    ensures freq > stopFreq ==> !ShouldStop(vfdRun, reqFreq, freq, stopFreq)
    ensures reqFreq <= stopFreq ==> !ShouldStart(vfdRun, reqFreq, stopFreq)
  {
  }

  /** The run state after one evaluation of the gate of lines 1098-1099.
      The bridge starts only on a request above `stopFreq`, and a latched
      fault forces the request to zero first, so a start always enables it. */
  function Gate(vfdRun: bool, reqFreq: u16, freq: u16, stopFreq: u16): bool
  {
    if ShouldStart(vfdRun, reqFreq, stopFreq) then true
    else if ShouldStop(vfdRun, reqFreq, freq, stopFreq) then false
    else vfdRun
  }

  /** The request and the output frequency seen by one pass of the gate. */
  datatype GateInput = GateInput(reqFreq: u16, freq: u16)

  /** The run state after the gate has seen each input of `trace` in turn. */
  function GateRun(vfdRun: bool, trace: seq<GateInput>, stopFreq: u16): bool
    decreases |trace|
  {
    if |trace| == 0 then vfdRun
    else GateRun(Gate(vfdRun, trace[0].reqFreq, trace[0].freq, stopFreq), trace[1..], stopFreq)
  }

  /** A running bridge keeps running as long as, at every pass, the request
      or the still-ramping output frequency is above `stopFreq`. */
  lemma {:induction false} RunsWhileEitherHigh(trace: seq<GateInput>, stopFreq: u16)
    requires forall i :: 0 <= i < |trace| ==> trace[i].reqFreq > stopFreq || trace[i].freq > stopFreq
    ensures GateRun(true, trace, stopFreq)
    decreases |trace|
  {
    if |trace| > 0 {
      assert Gate(true, trace[0].reqFreq, trace[0].freq, stopFreq);
      RunsWhileEitherHigh(trace[1..], stopFreq);
    }
  }

  /** A stopped bridge stays stopped as long as, at every pass, the request is
      at or below `stopFreq`, whatever the output frequency. */
  lemma {:induction false} StaysStoppedWhileRequestLow(trace: seq<GateInput>, stopFreq: u16)
    requires forall i :: 0 <= i < |trace| ==> trace[i].reqFreq <= stopFreq
    ensures !GateRun(false, trace, stopFreq)
    decreases |trace|
  {
    if |trace| > 0 {
      assert !Gate(false, trace[0].reqFreq, trace[0].freq, stopFreq);
      StaysStoppedWhileRequestLow(trace[1..], stopFreq);
    }
  }

  /** `extSw()` (wilo.c:667-673): the external switch input as configured:
      ignored (always on), active-high or active-low. */
  function ExtSw(config: int, pin: bool): (on: bool)
    requires 0 <= config <= 2
    // configuration 0 ignores the pin; otherwise the switch is on exactly
    // when the pin is at the configured active level
    ensures config == 0 ==> on
    ensures config != 0 ==> (on <==> pin == (config == 1))
  {
    match config
    case 0 => true
    case 1 => pin
    case _ => !pin
  }

  /** Only configurations 1 and 2 depend on the pin, and they read it with
      opposite polarity. */
  lemma ExtSwPolarity(pin: bool)
    ensures ExtSw(0, pin) == ExtSw(0, !pin)
    ensures ExtSw(1, pin) != ExtSw(1, !pin) && ExtSw(2, pin) != ExtSw(2, !pin)
    ensures ExtSw(1, pin) == !ExtSw(2, pin)
  {
  }
}
