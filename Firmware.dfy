/** The firmware's global state and its step procedures. Every interrupt
    handler is one atomic method; every hardware register the firmware reads
    is a parameter, and every register it writes that matters to the logic
    (the three compare registers, the output enable) is a field. */
module Firmware {
  import opened Word
  import opened Svpwm
  import opened Pressure
  import opened Regulation
  import opened Faults
  import opened Display
  import opened NumField
  import opened Params
  import opened Keys
  import opened Averager
  import opened MenuLine

  /** The initial contents of `menuLine` and `statusLine[0]`
      (wilo.c:149-155), padded with NULs to the 20-character buffers. */
  const MENU_LINE_INIT: string := "[######] >######\0\0\0\0"
  const STATUS_LINE_INIT: string := "#.#bar | ##Hz ###\0\0\0"

  /** The firmware's global state. Each interrupt handler and each main-loop
      routine is a method. The invariant is split into component predicates
      (`WaveOk`, `RingOk`, `AdcOk`, `UiOk` with `Shape`), and every method
      requires and ensures only the components it touches, framed by the
      fields it modifies, so the others are kept by framing. `Valid` is their
      conjunction, established at power-up by `PowerUpIsValid`. */
  class Drive {
    // clock: 4 ms ticks counted by the carrier interrupt
    var t4ms: u16
    var z0cnt: u8

    // inverter (wilo.c:162-174)
    var freq: u16
    var reqFreq: u16
    var maxFreq: u16
    var baseFreq: u16
    var minFreq: u16
    var stopFreq: u16
    var manualFreq: u16
    var freqToPwm: u16
    var fineIndex: u16
    var svpwmIndex: u16
    var pwmRatio: int
    var vfdRun: bool
    var rotDir: bool
    /** `TZ0.GRB`, `TZ0.GRC`, `TZ0.GRD`: the three phase compare registers. */
    var grb: u16
    var grc: u16
    var grd: u16
    /** `TZ.TOER` enables the three bridge outputs. */
    var outputsOn: bool

    // pressure transducer (wilo.c:177-190)
    var z1highWord: u16
    var pLowWord: u16
    var pHighWord: u16
    var pTckLast: u32
    var pOvf: bool
    var tPres: u16
    const pRaw: array<u16>
    var pAct: i16
    var pOn: i16
    var pOff: i16
    var pNew: bool
    var pIndex: u8
    var flow: bool
    var isNewPres: bool

    // regulator (wilo.c:193-195)
    var regOn: bool
    var tReg: u16
    var tOn: u16
    var vfdStopDelay: u16

    // keyboard (wilo.c:198-199)
    var lastKey: Key
    var keyFirst: bool
    var tKey: u16

    // measurements and limits (wilo.c:205-213)
    const adcVal: array<u16>
    const adcCnt: array<u8>
    /** The samples summed in each accumulator since it was last published. */
    ghost var adcWindow: seq<seq<int>>
    var temp: u16
    var current: u16
    var voltage: u16
    var minVolt: u16
    var maxVolt: u16
    var maxCur: u16
    var maxTemp: u16

    // faults (wilo.c:216-217)
    var fault: bv16
    var scFault: bv16
    var tPresFault: u16
    var tUv: u16
    var tOv: u16
    var tTemp: u16

    // Modbus receive buffer (wilo.c:220-221)
    const modbusReq: array<u8>
    var modbusReqI: u8
    var tModbus: u16

    // menu, pages and settings (wilo.c:139-143, 153-160)
    const param: array<int>
    var autoRun: bool
    var manualRun: bool
    var extSwConfig: u8
    var menu: u8
    var menuItem: u8
    var page: u8
    var ignFaults: bool
    var itemValue: i16
    const menuLine: array<char>
    /** The first status line, `statusLine[0]`. */
    const statusLine: array<char>
    var dispStep: u8
    var tDisp: u16
    /** The serial EEPROM's contents. */
    var eep: seq<u8>

    /** The buffers' sizes, and the buffers of one element type are distinct. */
    ghost predicate Shape()
    {
      pRaw.Length == RING && param.Length == N_PARAM && adcVal.Length == 3 && adcCnt.Length == 3
      && modbusReq.Length == 8 && menuLine.Length == 20 && statusLine.Length == 20
      && pRaw != adcVal && adcCnt != modbusReq && menuLine != statusLine
    }

    /** The modulation ratio, the table index and the compare registers stay
        in their ranges. */
    ghost predicate WaveOk()
      reads this`pwmRatio, this`svpwmIndex, this`grb, this`grc, this`grd
    {
      0 <= pwmRatio <= MAX_RATIO && svpwmIndex < STEPS
      && grb <= PWM_MAX && grc <= PWM_MAX && grd <= PWM_MAX
    }

    /** The ring index is a slot and every slot and the median are raw
        periods of at most MAX_RAW (or the initial 0). */
    ghost predicate RingOk()
      reads this`pIndex, this`pAct, pRaw
      requires Shape()
    {
      pIndex < RING && (forall k :: 0 <= k < RING ==> pRaw[k] <= MAX_RAW) && 0 <= pAct <= MAX_RAW
    }

    /** Each accumulator holds the sum of fewer than 64 samples of 10 bits,
        and each count is the number of those samples. */
    ghost predicate AdcOk()
      reads this`adcWindow, adcVal, adcCnt
      requires Shape()
    {
      |adcWindow| == 3
      && forall k :: 0 <= k < 3 ==>
           AllSamples(adcWindow[k]) && |adcWindow[k]| < SAMPLES
           && adcCnt[k] == |adcWindow[k]| && adcVal[k] == Sum(adcWindow[k])
    }

    /** The menu state and the page are in range, the EEPROM is an image. */
    ghost predicate UiOk()
      reads this`extSwConfig, this`menu, this`menuItem, this`page, this`eep
    {
      extSwConfig <= 2 && menu <= 2 && menuItem < N_PARAM && page < N_PAGE && IsImage(eep)
    }

    /** Every component of the invariant. */
    ghost predicate Valid()
      reads this, pRaw, adcVal, adcCnt
    {
      Shape() && WaveOk() && RingOk() && AdcOk() && modbusReqI < 8 && UiOk()
    }

    /** The settings are loaded: the EEPROM is accepted and holds exactly
        the parameters, which are therefore all in range; in the menu the
        edited value is the selected parameter (browsing) or inside its
        range (editing). */
    ghost predicate Settled()
      reads this`eep, this`menu, this`menuItem, this`itemValue, param
      requires Shape() && menuItem < N_PARAM && IsImage(eep)
    {
      Accepts(eep) && Holds(eep, param[..]) && AllInRange(param[..])
      && (menu == 1 ==> itemValue == param[menuItem])
      && (menu == 2 ==> InRange(menuItem, itemValue))
    }

    /** The bridge is off and the regulator reset, as `stopVfd` leaves it. */
    predicate Stopped()
      reads this`reqFreq, this`freq, this`regOn, this`vfdRun, this`outputsOn
    {
      reqFreq == 0 && freq == 0 && !regOn && !vfdRun && !outputsOn
    }

    predicate Faulted()
      reads this`fault, this`scFault
    {
      fault != 0 || scFault != 0
    }

    /** The power-up values of the state the invariants constrain. */
    ghost predicate PowerUp()
      reads this, pRaw, adcVal, adcCnt
      requires Shape()
    {
      pwmRatio == 0 && svpwmIndex == 0 && grb == grc == grd == 0
      && pIndex == 0 && pAct == 0 && pRaw[..] == [0, 0, 0]
      && adcWindow == [[], [], []] && adcVal[..] == [0, 0, 0] && adcCnt[..] == [0, 0, 0]
      && modbusReqI == 0 && extSwConfig == 0 && menu == 0 && menuItem == 0 && page == 0
      && Stopped() && !Faulted()
    }

    /** The power-up state satisfies every invariant. */
    lemma PowerUpIsValid()
      requires Shape() && PowerUp() && IsImage(eep)
      ensures Valid()
    {
      assert forall k :: 0 <= k < 3 ==> adcVal[k] == adcVal[..][k] && adcCnt[k] == adcCnt[..][k];
      assert forall k :: 0 <= k < 3 ==> pRaw[k] == pRaw[..][k];
    }

    /** Power-up: every global zero except those the source initialises, and
        the EEPROM holding `image`. */
    constructor (image: seq<u8>)
      requires IsImage(image)
      ensures Shape() && PowerUp() && eep == image
      ensures pOn == 625 && pOff == 675 && vfdStopDelay == 750 && maxTemp == 0xFFFF
    {
      t4ms, z0cnt := 0, 0;
      freq, reqFreq, maxFreq, baseFreq, minFreq, stopFreq, manualFreq, freqToPwm := 0, 0, 0, 0, 0, 0, 0, 0;
      fineIndex, svpwmIndex, pwmRatio, vfdRun, rotDir := 0, 0, 0, false, false;
      grb, grc, grd, outputsOn := 0, 0, 0, false;
      z1highWord, pLowWord, pHighWord, pTckLast, pOvf, tPres := 0, 0, 0, 0, false, 0;
      pRaw := new u16[3](_ => 0);
      pAct, pOn, pOff, pNew, pIndex, flow, isNewPres := 0, 625, 675, false, 0, false, false;
      regOn, tReg, tOn, vfdStopDelay := false, 0, 0, 750;
      lastKey, keyFirst, tKey := NoKey, false, 0;
      adcVal := new u16[3](_ => 0);
      adcCnt := new u8[3](_ => 0);
      adcWindow := [[], [], []];
      temp, current, voltage, minVolt, maxVolt, maxCur, maxTemp := 0, 0, 0, 0, 0, 0, 0xFFFF;
      fault, scFault, tPresFault, tUv, tOv, tTemp := 0, 0, 0, 0, 0, 0;
      modbusReq := new u8[8](_ => 0);
      modbusReqI, tModbus := 0, 0;
      param := new int[N_PARAM](_ => 0);
      autoRun, manualRun, extSwConfig, menu, menuItem, page, ignFaults, itemValue := false, false, 0, 0, 0, 0, false, 0;
      menuLine := new char[20](i requires 0 <= i < 20 => MENU_LINE_INIT[i]);
      statusLine := new char[20](i requires 0 <= i < 20 => STATUS_LINE_INIT[i]);
      dispStep, tDisp := 0, 0;
      eep := image;
    }

    /** `stopVfd` (wilo.c:585-592). */
    method StopVfd()
      modifies this`reqFreq, this`freq, this`regOn, this`outputsOn, this`vfdRun
      ensures Stopped()
    {
      reqFreq := 0;
      freq := 0;
      regOn := false;
      outputsOn := false;
      vfdRun := false;
    }

    /** `startVfd` (wilo.c:570-583): ramp from zero with the compare registers
        at mid-scale; the outputs are enabled only while no fault is latched. */
    method StartVfd()
      requires WaveOk()
      modifies this`freq, this`pwmRatio, this`grb, this`grc, this`grd, this`outputsOn, this`vfdRun
      ensures WaveOk()
      ensures freq == 0 && pwmRatio == 0 && grb == grc == grd == PWM_MAX / 2
      ensures Faulted() ==> vfdRun == old(vfdRun) && outputsOn == old(outputsOn)
      ensures !Faulted() ==> vfdRun && outputsOn
    {
      freq := 0;
      pwmRatio := 0;
      grb := PWM_MAX / 2;
      grc := PWM_MAX / 2;
      grd := PWM_MAX / 2;
      if !(fault != 0 || scFault != 0) {
        outputsOn := true;
        vfdRun := true;
      }
    }

    /** The Timer Z0 interrupt (wilo.c:1176-1214), entered with the four
        compare-match flags A..D. Flag A is the carrier tick (lines 1181-1196);
        flags D, C, B reload the compare registers of phases U, V, W
        (lines 1200-1212). */
    method TimerZ0(imfa: bool, imfb: bool, imfc: bool, imfd: bool)
      requires WaveOk()
      modifies this`z0cnt, this`t4ms, this`freq, this`fineIndex, this`svpwmIndex, this`pwmRatio
      modifies this`grb, this`grc, this`grd
      ensures WaveOk()
      ensures imfa ==> z0cnt == Wrap8(old(z0cnt) + 1)
      ensures var tick := imfa && z0cnt % TICK_DIVISOR == 0;
        (tick ==> t4ms == Wrap16(old(t4ms) + 1) && freq == RampStep(old(freq), reqFreq))
        && (!tick ==> t4ms == old(t4ms) && freq == old(freq))
      ensures imfa ==> fineIndex == AdvancePhase(old(fineIndex), freq, rotDir)
      ensures imfa ==> svpwmIndex == PhaseIndex(fineIndex) && pwmRatio == PwmRatio(freq, freqToPwm)
      ensures !imfa ==> z0cnt == old(z0cnt) && fineIndex == old(fineIndex)
      ensures !imfa ==> svpwmIndex == old(svpwmIndex) && pwmRatio == old(pwmRatio)
      ensures grd == (if imfd then CompareValue(SvpwmU(svpwmIndex), pwmRatio) else old(grd))
      ensures grc == (if imfc then CompareValue(SvpwmV(svpwmIndex), pwmRatio) else old(grc))
      ensures grb == (if imfb then CompareValue(SvpwmW(svpwmIndex), pwmRatio) else old(grb))
    {
      if imfa {
        CarrierTick();
      }
      ReloadCompares(imfb, imfc, imfd);
    }

    /** Lines 1181-1196: count the carrier tick; every 32nd tick advances
        `t4ms` and ramps `freq` one step toward `reqFreq`; then advance the
        phase and recompute the modulation ratio. */
    method CarrierTick()
      requires WaveOk()
      modifies this`z0cnt, this`t4ms, this`freq, this`fineIndex, this`svpwmIndex, this`pwmRatio
      ensures WaveOk()
      ensures z0cnt == Wrap8(old(z0cnt) + 1)
      ensures z0cnt % TICK_DIVISOR == 0 ==> t4ms == Wrap16(old(t4ms) + 1) && freq == RampStep(old(freq), reqFreq)
      ensures z0cnt % TICK_DIVISOR != 0 ==> t4ms == old(t4ms) && freq == old(freq)
      ensures fineIndex == AdvancePhase(old(fineIndex), freq, rotDir)
      ensures svpwmIndex == PhaseIndex(fineIndex) && pwmRatio == PwmRatio(freq, freqToPwm)
    {
      z0cnt := Wrap8(z0cnt + 1);
      if z0cnt % TICK_DIVISOR == 0 {
        t4ms := Wrap16(t4ms + 1);
        freq := RampStep(freq, reqFreq);
      }
      fineIndex := AdvancePhase(fineIndex, freq, rotDir);
      svpwmIndex := PhaseIndex(fineIndex);
      pwmRatio := PwmRatio(freq, freqToPwm);
    }

    /** Lines 1200-1212: each flagged compare register is reloaded with its
        phase's table value scaled by the ratio around mid-scale, which keeps
        it within 3..1996, inside the carrier period. */
    method ReloadCompares(imfb: bool, imfc: bool, imfd: bool)
      requires WaveOk()
      modifies this`grb, this`grc, this`grd
      ensures WaveOk()
      ensures grd == (if imfd then CompareValue(SvpwmU(svpwmIndex), pwmRatio) else old(grd))
      ensures grc == (if imfc then CompareValue(SvpwmV(svpwmIndex), pwmRatio) else old(grc))
      ensures grb == (if imfb then CompareValue(SvpwmW(svpwmIndex), pwmRatio) else old(grb))
      ensures imfb ==> 3 <= grb <= 1996
      ensures imfc ==> 3 <= grc <= 1996
      ensures imfd ==> 3 <= grd <= 1996
    {
      if imfd {
        grd := CompareValue(SvpwmU(svpwmIndex), pwmRatio);
      }
      if imfc {
        grc := CompareValue(SvpwmV(svpwmIndex), pwmRatio);
      }
      if imfb {
        grb := CompareValue(SvpwmW(svpwmIndex), pwmRatio);
      }
    }

    /** `INT_IRQ0` (wilo.c:1138-1144): a transducer pulse captures Timer Z1's
        counter, the overflow count and the pending overflow flag. */
    method IntIrq0(tcnt: u16, ovf: bool)
      modifies this`pLowWord, this`pHighWord, this`pOvf, this`pNew
      ensures pLowWord == tcnt && pHighWord == z1highWord && pOvf == ovf && pNew
    {
      pLowWord := tcnt;
      pHighWord := z1highWord;
      pOvf := ovf;
      pNew := true;
    }

    /** `INT_IRQ1` (wilo.c:1147-1152): the bridge's fault input latches the
        short-circuit fault and disables the outputs. Nothing ever clears
        `scFault`. */
    method IntIrq1()
      modifies this`scFault, this`outputsOn
      ensures scFault == FAULT_SHORT && !outputsOn
    {
      scFault := FAULT_SHORT;
      outputsOn := false;
    }

    /** `INT_TimerZ1` (wilo.c:1217-1221): Timer Z1 overflowed once more. */
    method IntTimerZ1()
      modifies this`z1highWord
      ensures z1highWord == Wrap16(old(z1highWord) + 1)
    {
      z1highWord := Wrap16(z1highWord + 1);
    }

    /** `newPressure` (wilo.c:675-700): rebuild the capture time, measure the
        period since the previous capture and, when it is plausible, store it
        in the ring and take the median of the three slots as `pAct`. */
    method NewPressure() returns (accepted: bool)
      requires Shape() && RingOk()
      modifies this`pHighWord, this`pTckLast, this`pNew, pRaw, this`pIndex, this`pAct, this`tPres
      ensures RingOk()
      ensures pHighWord == CorrectedHighWord(pLowWord, old(pHighWord), pOvf)
      ensures pTckLast == CaptureTime(pLowWord, old(pHighWord), pOvf)
      ensures !pNew
      ensures accepted == Plausible(Period(pTckLast, old(pTckLast)))
      ensures !accepted ==> pRaw[..] == old(pRaw[..]) && pIndex == old(pIndex)
      ensures !accepted ==> pAct == old(pAct) && tPres == old(tPres)
      ensures accepted ==> pRaw[..] == old(pRaw[..])[old(pIndex) := RawPeriod(Period(pTckLast, old(pTckLast)))]
      ensures accepted ==> pIndex == (old(pIndex) + 1) % RING
      ensures accepted ==> pAct == Median3(pRaw[0], pRaw[1], pRaw[2]) && tPres == t4ms
    {
      pHighWord := CorrectedHighWord(pLowWord, pHighWord, pOvf);
      var tmpNow := pLowWord + 0x1_0000 * pHighWord;
      var tmpDiff := Period(tmpNow, pTckLast);
      pTckLast := tmpNow;
      pNew := false;
      if tmpDiff < MIN_PERIOD || tmpDiff > MAX_PERIOD {
        return false;
      }
      StoreRaw(tmpDiff / 64);
      return true;
    }

    /** Lines 684-698: store an accepted raw period at the ring index, advance
        the index cyclically and take the median of the three slots. */
    method StoreRaw(raw: u16)
      requires Shape() && RingOk() && raw <= MAX_RAW
      modifies pRaw, this`pIndex, this`pAct, this`tPres
      ensures RingOk()
      ensures pRaw[..] == old(pRaw[..])[old(pIndex) := raw]
      ensures pIndex == (old(pIndex) + 1) % RING
      ensures pAct == Median3(pRaw[0], pRaw[1], pRaw[2]) && tPres == t4ms
    {
      pRaw[pIndex] := raw;
      pIndex := pIndex + 1;
      if pIndex > 2 {
        pIndex := 0;
      }
      Median3Bounded(pRaw[0], pRaw[1], pRaw[2], 0, MAX_RAW);
      pAct := Median3(pRaw[0], pRaw[1], pRaw[2]);
      tPres := t4ms;
    }

    /** `regVfd` (wilo.c:594-616): with a fault latched, only stop a running
        bridge; otherwise decide whether to regulate, refresh `tOn`, and set
        the request from the proportional law, clamped. */
    method RegVfd()
      modifies this`tReg, this`tOn, this`regOn, this`reqFreq, this`freq, this`outputsOn, this`vfdRun
      ensures tReg == t4ms
      ensures Faulted() && old(vfdRun) ==> Stopped() && tOn == old(tOn)
      ensures Faulted() && !old(vfdRun) ==> tOn == old(tOn) && regOn == old(regOn) && reqFreq == old(reqFreq)
      ensures Faulted() && !old(vfdRun) ==> freq == old(freq) && outputsOn == old(outputsOn) && !vfdRun
      ensures !Faulted() ==>
        regOn == WantsToRun(pAct, pOn, old(regOn), Elapsed(t4ms, old(tOn)), vfdStopDelay, flow)
        && tOn == (if regOn && RefreshesOnTime(old(regOn), pAct, pOff, flow) then t4ms else old(tOn))
        && reqFreq == ClampRequest(if regOn then ProportionalRequest(pOff, pAct, baseFreq) else 0, regOn, minFreq, maxFreq)
        && freq == old(freq) && vfdRun == old(vfdRun) && outputsOn == old(outputsOn)
      // the request never exceeds the maximum and is zero whenever the regulator is off
      ensures !Faulted() ==> reqFreq <= maxFreq && (!regOn ==> reqFreq == 0)
    {
      tReg := t4ms;
      if fault != 0 || scFault != 0 {
        if vfdRun {
          StopVfd();
        }
        return;
      }
      var tmp: i16;
      if pAct < pOn || (regOn && Elapsed(tReg, tOn) < vfdStopDelay) || flow {
        if !regOn || pAct < pOff || flow {
          tOn := t4ms;
          regOn := true;
        }
        tmp := ProportionalRequest(pOff, pAct, baseFreq);
      } else {
        tmp := 0;
        regOn := false;
      }
      reqFreq := ClampRequest(tmp, regOn, minFreq, maxFreq);
    }

    // ---------------------------------------------------------------- faults

    /** The four debounced fault conditions of `checkFaults` (wilo.c:703-726). */
    predicate PressureLost()
      reads this`t4ms, this`tPres
    {
      Elapsed(t4ms, tPres) > PRESSURE_TIMEOUT
    }

    predicate UnderVoltage()
      reads this`voltage, this`minVolt
    {
      voltage < minVolt
    }

    predicate OverVoltage()
      reads this`voltage, this`maxVolt
    {
      voltage > maxVolt
    }

    predicate OverTemperature()
      reads this`temp, this`maxTemp
    {
      temp > maxTemp
    }

    /** The two latched conditions (wilo.c:728-735); `cksta` is the
        oscillator-running flag `CKCSR.CKSTA`. */
    predicate OverCurrent()
      reads this`current, this`maxCur
    {
      current > maxCur
    }

    predicate AnyFaultCondition(cksta: bool)
      reads this`t4ms, this`tPres, this`voltage, this`minVolt, this`maxVolt
      reads this`temp, this`maxTemp, this`current, this`maxCur
    {
      PressureLost() || UnderVoltage() || OverVoltage() || OverTemperature() || OverCurrent() || !cksta
    }

    /** `checkFaults` (wilo.c:702-739). */
    method CheckFaults(cksta: bool)
      modifies this`fault, this`tPresFault, this`tUv, this`tOv, this`tTemp
      modifies this`reqFreq, this`freq, this`regOn, this`outputsOn, this`vfdRun
      ensures MaskUpdate(old(fault), fault, PressureLost(), UnderVoltage(), OverVoltage(), OverTemperature(), OverCurrent(), cksta,
                         Elapsed(t4ms, old(tPresFault)), Elapsed(t4ms, old(tUv)), Elapsed(t4ms, old(tOv)), Elapsed(t4ms, old(tTemp)))
      ensures tPresFault == NewStamp(PressureLost(), old(tPresFault), t4ms)
      ensures tUv == NewStamp(UnderVoltage(), old(tUv), t4ms)
      ensures tOv == NewStamp(OverVoltage(), old(tOv), t4ms)
      ensures tTemp == NewStamp(OverTemperature(), old(tTemp), t4ms)
      // every condition that holds stops the bridge; otherwise it is left alone
      ensures AnyFaultCondition(cksta) ==> Stopped()
      ensures !AnyFaultCondition(cksta) ==>
        reqFreq == old(reqFreq) && freq == old(freq) && regOn == old(regOn)
        && outputsOn == old(outputsOn) && vfdRun == old(vfdRun)
    {
      var lost, under, over, hot, overCurrent := PressureLost(), UnderVoltage(), OverVoltage(), OverTemperature(), OverCurrent();
      UpdateFaults(cksta);
      if lost || under || over || hot || overCurrent || !cksta {
        StopVfd();
      }
    }

    /** The mask and stamp updates of `checkFaults`; every stamp whose
        condition holds is set to the current tick. */
    method UpdateFaults(cksta: bool)
      modifies this`fault, this`tPresFault, this`tUv, this`tOv, this`tTemp
      ensures MaskUpdate(old(fault), fault, PressureLost(), UnderVoltage(), OverVoltage(), OverTemperature(), OverCurrent(), cksta,
                         Elapsed(t4ms, old(tPresFault)), Elapsed(t4ms, old(tUv)), Elapsed(t4ms, old(tOv)), Elapsed(t4ms, old(tTemp)))
      ensures tPresFault == NewStamp(PressureLost(), old(tPresFault), t4ms)
      ensures tUv == NewStamp(UnderVoltage(), old(tUv), t4ms)
      ensures tOv == NewStamp(OverVoltage(), old(tOv), t4ms)
      ensures tTemp == NewStamp(OverTemperature(), old(tTemp), t4ms)
    {
      var lost, under, over, hot := PressureLost(), UnderVoltage(), OverVoltage(), OverTemperature();
      fault := CheckMask(fault, lost, under, over, hot, OverCurrent(), cksta,
                         Elapsed(t4ms, tPresFault), Elapsed(t4ms, tUv), Elapsed(t4ms, tOv), Elapsed(t4ms, tTemp));
      tPresFault, tUv, tOv, tTemp := NewStamp(lost, tPresFault, t4ms), NewStamp(under, tUv, t4ms), NewStamp(over, tOv, t4ms), NewStamp(hot, tTemp, t4ms);
    }

    /** wilo.c:1078-1082: with `ignFaults` set the loop clears `fault` instead
        of checking; `scFault` is not touched, so a short circuit still blocks
        the bridge. */
    method FaultStep(cksta: bool)
      modifies this`fault, this`tPresFault, this`tUv, this`tOv, this`tTemp
      modifies this`reqFreq, this`freq, this`regOn, this`outputsOn, this`vfdRun
      ensures ignFaults ==> fault == 0
      ensures ignFaults ==>
        tPresFault == old(tPresFault) && tUv == old(tUv) && tOv == old(tOv) && tTemp == old(tTemp)
        && reqFreq == old(reqFreq) && freq == old(freq) && regOn == old(regOn)
        && outputsOn == old(outputsOn) && vfdRun == old(vfdRun)
      ensures ignFaults ==> (Faulted() <==> scFault != 0)
      // otherwise a condition that holds latches a fault and stops the bridge
      ensures !ignFaults && AnyFaultCondition(cksta) ==> Faulted() && Stopped()
      ensures !ignFaults ==> Has(fault, FAULT_SHORT) == Has(old(fault), FAULT_SHORT) && fault >> 7 == old(fault) >> 7
    {
      if ignFaults {
        fault := 0;
      } else {
        CheckFaults(cksta);
        assert Faulted() <== Has(fault, FAULT_PRESSURE) || Has(fault, FAULT_UV) || Has(fault, FAULT_OV)
          || Has(fault, FAULT_TEMP) || Has(fault, FAULT_OC) || Has(fault, FAULT_XTAL);
      }
    }

    // ---------------------------------------------------------- control step

    /** wilo.c:1088: `isNewPres = pNew ? newPressure() : 0`. */
    method PressureStep()
      requires Shape() && RingOk()
      modifies this`pHighWord, this`pTckLast, this`pNew, pRaw, this`pIndex, this`pAct, this`tPres, this`isNewPres
      ensures RingOk() && !pNew
      // no pending capture: the ring and the capture time are untouched
      ensures !old(pNew) ==> !isNewPres && pAct == old(pAct) && tPres == old(tPres) && pRaw[..] == old(pRaw[..])
      ensures !old(pNew) ==> pIndex == old(pIndex) && pTckLast == old(pTckLast) && pHighWord == old(pHighWord)
      // a pending capture is timestamped and its period judged
      ensures old(pNew) ==> pHighWord == CorrectedHighWord(pLowWord, old(pHighWord), pOvf)
      ensures old(pNew) ==> pTckLast == CaptureTime(pLowWord, old(pHighWord), pOvf)
      ensures old(pNew) ==> isNewPres == Plausible(Period(pTckLast, old(pTckLast)))
      ensures !isNewPres ==> pAct == old(pAct) && tPres == old(tPres) && pRaw[..] == old(pRaw[..]) && pIndex == old(pIndex)
      // an accepted period goes to the ring and the median is taken
      ensures isNewPres ==> pRaw[..] == old(pRaw[..])[old(pIndex) := RawPeriod(Period(pTckLast, old(pTckLast)))]
      ensures isNewPres ==> pIndex == (old(pIndex) + 1) % RING
      ensures isNewPres ==> pAct == Median3(pRaw[0], pRaw[1], pRaw[2]) && tPres == t4ms
    {
      if pNew {
        isNewPres := NewPressure();
      } else {
        isNewPres := false;
      }
    }

    /** wilo.c:1090-1097: the request comes from the manual frequency, from
        the regulator on a new pressure reading while automatic mode is on
        and the external switch allows it, or is zero; any latched fault then
        forces it to zero. Nothing here starts the bridge. */
    method RequestStep(extPin: bool)
      requires extSwConfig <= 2
      modifies this`tReg, this`tOn, this`regOn, this`reqFreq, this`freq, this`outputsOn, this`vfdRun
      ensures Faulted() ==> reqFreq == 0
      ensures (vfdRun ==> old(vfdRun)) && (outputsOn ==> old(outputsOn))
      ensures old(vfdRun) && !vfdRun ==> Stopped()
      ensures !Faulted() && manualRun ==> reqFreq == manualFreq && regOn == old(regOn) && vfdRun == old(vfdRun)
      ensures !Faulted() && manualRun ==> tOn == old(tOn)
      // a new reading in automatic mode runs the regulator: the request is the
      // clamped proportional law, at most `maxFreq` and zero while not regulating
      ensures !Faulted() && !manualRun && autoRun && ExtSw(extSwConfig, extPin) && isNewPres ==>
        regOn == WantsToRun(pAct, pOn, old(regOn), Elapsed(t4ms, old(tOn)), vfdStopDelay, flow)
        && tOn == (if regOn && RefreshesOnTime(old(regOn), pAct, pOff, flow) then t4ms else old(tOn))
        && reqFreq == ClampRequest(if regOn then ProportionalRequest(pOff, pAct, baseFreq) else 0, regOn, minFreq, maxFreq)
        && reqFreq <= maxFreq && (!regOn ==> reqFreq == 0)
        && vfdRun == old(vfdRun) && tReg == t4ms
      ensures !Faulted() && !manualRun && autoRun && ExtSw(extSwConfig, extPin) && !isNewPres ==>
        reqFreq == old(reqFreq) && regOn == old(regOn) && vfdRun == old(vfdRun) && tOn == old(tOn)
      ensures !Faulted() && !manualRun && !(autoRun && ExtSw(extSwConfig, extPin)) ==>
        reqFreq == 0 && regOn == old(regOn) && vfdRun == old(vfdRun) && tOn == old(tOn)
    {
      if manualRun {
        reqFreq := manualFreq;
      } else if autoRun && ExtSw(extSwConfig, extPin) {
        if isNewPres {
          RegVfd();
        }
      } else {
        reqFreq := 0;
      }
      if fault != 0 || scFault != 0 {
        reqFreq := 0;
      }
    }

    /** wilo.c:1098-1099: start a stopped bridge when the request exceeds
        `stopFreq`; stop a running one once both the request and the output
        frequency have fallen to `stopFreq`. */
    method GateStep()
      requires WaveOk()
      modifies this`freq, this`pwmRatio, this`grb, this`grc, this`grd, this`outputsOn, this`vfdRun
      modifies this`reqFreq, this`regOn
      ensures WaveOk()
      ensures !old(vfdRun) && old(reqFreq) > stopFreq ==>
        freq == 0 && pwmRatio == 0 && grb == grc == grd == PWM_MAX / 2 && reqFreq == old(reqFreq)
        && (vfdRun <==> !Faulted()) && (!Faulted() ==> outputsOn)
      ensures old(vfdRun) && old(reqFreq) <= stopFreq && old(freq) <= stopFreq ==> Stopped()
      ensures !(!old(vfdRun) && old(reqFreq) > stopFreq) && !(old(vfdRun) && old(reqFreq) <= stopFreq && old(freq) <= stopFreq) ==>
        freq == old(freq) && vfdRun == old(vfdRun) && outputsOn == old(outputsOn) && reqFreq == old(reqFreq)
        && pwmRatio == old(pwmRatio) && regOn == old(regOn)
      ensures Faulted() ==> (vfdRun ==> old(vfdRun)) && (outputsOn ==> old(outputsOn))
      ensures !Faulted() ==> vfdRun == Gate(old(vfdRun), old(reqFreq), old(freq), stopFreq)
    {
      if !vfdRun && reqFreq > stopFreq {
        StartVfd();
      } else if vfdRun && reqFreq <= stopFreq && freq <= stopFreq {
        StopVfd();
      }
    }

    /** wilo.c:1090-1099: set the request, then open or close the gate. With
        a fault latched the request is zero and the bridge is neither started
        nor its outputs enabled; the bridge starts only on a request above
        `stopFreq` and is left stopped whenever it stops. */
    method CommandStep(extPin: bool)
      requires WaveOk() && extSwConfig <= 2
      modifies this`tReg, this`tOn, this`regOn, this`reqFreq, this`freq, this`outputsOn, this`vfdRun
      modifies this`pwmRatio, this`grb, this`grc, this`grd
      ensures WaveOk()
      ensures Faulted() ==> reqFreq == 0 && !(vfdRun && !old(vfdRun)) && (outputsOn ==> old(outputsOn))
      ensures !old(vfdRun) && vfdRun ==> !Faulted() && reqFreq > stopFreq && freq == 0 && outputsOn
      ensures old(vfdRun) && !vfdRun ==> Stopped()
      ensures !Faulted() && manualRun && !old(vfdRun) && manualFreq > stopFreq ==> vfdRun
    {
      RequestStep(extPin);
      GateStep();
    }

    /** The control part of one main-loop iteration (wilo.c:1088-1099): take
        a pending pressure capture, then set the request and gate the bridge
        as `CommandStep` states. */
    method ControlStep(extPin: bool)
      requires Shape() && RingOk() && WaveOk() && extSwConfig <= 2
      modifies this`pHighWord, this`pTckLast, this`pNew, pRaw, this`pIndex, this`pAct, this`tPres, this`isNewPres
      modifies this`tReg, this`tOn, this`regOn, this`reqFreq, this`freq, this`outputsOn, this`vfdRun
      modifies this`pwmRatio, this`grb, this`grc, this`grd
      ensures RingOk() && WaveOk() && !pNew
      ensures Faulted() ==> reqFreq == 0 && !(vfdRun && !old(vfdRun)) && (outputsOn ==> old(outputsOn))
      ensures !old(vfdRun) && vfdRun ==> !Faulted() && reqFreq > stopFreq && freq == 0 && outputsOn
      ensures old(vfdRun) && !vfdRun ==> Stopped()
      ensures !Faulted() && manualRun && !old(vfdRun) && manualFreq > stopFreq ==> vfdRun
    {
      PressureStep();
      CommandStep(extPin);
    }

    // ----------------------------------------------------------- peripherals

    /** `readKey` (wilo.c:472-494), given the scanned key `raw`: a double
        press reports nothing and restarts the hold time; a new key is
        reported at once; a held key is reported again once it has been held
        longer than the first or the later repeat delay. */
    method ReadKey(raw: Key) returns (k: Key)
      modifies this`lastKey, this`keyFirst, this`tKey
      ensures k != Invalid
      ensures old(lastKey) != Invalid ==> lastKey != Invalid
      ensures raw == Invalid ==> k == NoKey && tKey == t4ms && lastKey == old(lastKey) && keyFirst == old(keyFirst)
      ensures raw != Invalid && raw != old(lastKey) ==> k == raw && lastKey == raw && keyFirst && tKey == t4ms
      ensures raw != Invalid && raw == old(lastKey) ==> lastKey == old(lastKey)
      ensures raw != Invalid && raw == old(lastKey) && Elapsed(t4ms, old(tKey)) > RepeatDelay(old(keyFirst)) ==>
        k == raw && tKey == t4ms && !keyFirst
      ensures raw != Invalid && raw == old(lastKey) && Elapsed(t4ms, old(tKey)) <= RepeatDelay(old(keyFirst)) ==>
        k == NoKey && tKey == old(tKey) && keyFirst == old(keyFirst)
    {
      if raw == Invalid {
        tKey := t4ms;
        return NoKey;
      }
      if raw != lastKey {
        tKey := t4ms;
        keyFirst := true;
        lastKey := raw;
        return raw;
      }
      if Elapsed(t4ms, tKey) > RepeatDelay(keyFirst) {
        tKey := t4ms;
        keyFirst := false;
        return raw;
      }
      return NoKey;
    }

    /** `modbusProc` (wilo.c:965-973), given the receive-full flag and the
        received byte: more than two ticks of silence restart the frame; a
        received byte is stored at the index, which wraps after eight. */
    method ModbusProc(rdrf: bool, rdr: u8)
      requires Shape() && modbusReqI < 8
      modifies modbusReq, this`modbusReqI, this`tModbus
      ensures modbusReqI < 8
      ensures var start := if Elapsed(t4ms, old(tModbus)) > 2 then 0 else old(modbusReqI) as int;
        (rdrf ==> modbusReq[..] == old(modbusReq[..])[start := rdr] && modbusReqI as int == (start + 1) % 8 && tModbus == t4ms)
        && (!rdrf ==> modbusReq[..] == old(modbusReq[..]) && modbusReqI as int == start && tModbus == old(tModbus))
    {
      if Elapsed(t4ms, tModbus) > 2 {
        modbusReqI := 0;
      }
      if rdrf {
        modbusReq[modbusReqI] := rdr;
        modbusReqI := modbusReqI + 1;
        tModbus := t4ms;
      }
      if modbusReqI == 8 {
        modbusReqI := 0;
      }
    }

    /** One completed conversion of accumulator `k` (wilo.c:624-651): add the
        sample; the 64th publishes the window's mean and restarts it. */
    method Accumulate(k: int, s: int) returns (full: bool, mean: u16)
      requires Shape() && AdcOk() && 0 <= k < 3 && 0 <= s <= MAX_SAMPLE
      modifies adcVal, adcCnt, this`adcWindow
      ensures AdcOk()
      ensures full <==> |old(adcWindow[k])| + 1 == SAMPLES
      ensures full ==> mean as int == Sum(old(adcWindow[k]) + [s]) / SAMPLES && mean <= MAX_SAMPLE
      ensures adcWindow == old(adcWindow)[k := if full then [] else old(adcWindow[k]) + [s]]
    {
      var w := adcWindow[k] + [s];
      SumSnoc(adcWindow[k], s);
      assert AllSamples(w) by {
        forall j | 0 <= j < |w|
          ensures 0 <= w[j] <= MAX_SAMPLE
        {
          if j < |w| - 1 {
            assert w[j] == adcWindow[k][j];
          }
        }
      }
      SumBound(w);
      adcVal[k] := adcVal[k] + s as u16;
      adcCnt[k] := adcCnt[k] + 1;
      adcWindow := adcWindow[k := w];
      full := adcCnt[k] == 64;
      mean := 0;
      if full {
        MeanOfWindow(w);
        mean := adcVal[k] / 64;
        adcCnt[k] := 0;
        adcVal[k] := 0;
        adcWindow := adcWindow[k := []];
      }
    }

    /** `adcProc` (wilo.c:618-665), given the converter's status register, the
        three data registers and the flow-switch pin; returns the bytes
        written back to the status register. A completed conversion on AN3
        (temperature), AN4 (current) or AN6 (voltage) is fed into that
        channel's window, and any other channel restarts at AN3; an idle
        converter is restarted at AN3. */
    method AdcProc(adcsr: bv8, addra: u16, addrc: u16, addrd: u16, pinB2: bool) returns (written: seq<bv8>)
      requires Shape() && AdcOk()
      modifies adcVal, adcCnt, this`adcWindow, this`temp, this`current, this`voltage, this`flow
      ensures AdcOk()
      ensures adcsr & 0x80 == 0 ==>
        adcWindow == old(adcWindow) && temp == old(temp) && current == old(current) && voltage == old(voltage)
        && flow == old(flow) && written == (if adcsr & 0x20 == 0 then [3, 0x23] else [])
      ensures adcsr & 0x80 != 0 ==> flow == !pinB2 && |written| == 2 && written[1] == written[0] | 0x20
      ensures adcsr & 0x80 != 0 && adcsr & 7 == 3 ==>
        Fed(old(adcWindow[0]), adcWindow[0], Sample(addrd), old(temp) as int, temp as int, 3, written[0] as int)
        && adcWindow[1..] == old(adcWindow[1..]) && current == old(current) && voltage == old(voltage)
      ensures adcsr & 0x80 != 0 && adcsr & 7 == 4 ==>
        Fed(old(adcWindow[1]), adcWindow[1], Sample(addra), old(current) as int, current as int, 4, written[0] as int)
        && adcWindow[0] == old(adcWindow[0]) && adcWindow[2] == old(adcWindow[2]) && temp == old(temp) && voltage == old(voltage)
      ensures adcsr & 0x80 != 0 && adcsr & 7 == 6 ==>
        Fed(old(adcWindow[2]), adcWindow[2], Sample(addrc), old(voltage) as int, voltage as int, 6, written[0] as int)
        && adcWindow[..2] == old(adcWindow[..2]) && temp == old(temp) && current == old(current)
      ensures adcsr & 0x80 != 0 && adcsr & 7 != 3 && adcsr & 7 != 4 && adcsr & 7 != 6 ==>
        written == [3, 0x23] && adcWindow == old(adcWindow)
        && temp == old(temp) && current == old(current) && voltage == old(voltage)
    {
      written := [];
      if adcsr & 0x80 != 0 {
        var chan := adcsr & 7;
        if chan == 3 {
          var full, mean := Accumulate(0, Sample(addrd));
          if full {
            temp := mean;
            chan := 4;
          }
        } else if chan == 4 {
          var full, mean := Accumulate(1, Sample(addra));
          if full {
            current := mean;
            chan := 6;
          }
        } else if chan == 6 {
          var full, mean := Accumulate(2, Sample(addrc));
          if full {
            voltage := mean;
            chan := 3;
          }
        } else {
          chan := 3;
        }
        flow := !pinB2;
        written := [chan, chan | 0x20];
      } else if adcsr & 0x20 == 0 {
        written := [3, 0x23];
      }
    }

    // --------------------------------------------------------------- display

    /** `dispProc` (wilo.c:741-845), the integer parts: one step of the
        display cycle 0..8. Step 3 shows " - " for the pressure while the
        pressure fault is set and the flow glyph at position 7; step 5 shows
        the fault code at positions 14-15; step 6 moves a fault page whose
        fault has cleared to the first fault page whose fault is present, or
        to page 0. */
    method DispProc()
      requires Shape() && page < N_PAGE
      modifies statusLine, this`page, this`dispStep, this`tDisp
      ensures page < N_PAGE && tDisp == t4ms
      ensures dispStep == if old(dispStep) < 8 then old(dispStep) + 1 else 0
      ensures old(dispStep) == 3 ==>
        (Has(fault, FAULT_PRESSURE) ==> statusLine[..3] == " - ")
        && statusLine[7] == (if flow then '\U{2}' else ' ')
        && statusLine[3..7] == old(statusLine[3..7]) && statusLine[8..] == old(statusLine[8..])
      ensures old(dispStep) == 5 ==>
        statusLine[14..16] == FaultCode(fault | scFault)
        && statusLine[..14] == old(statusLine[..14]) && statusLine[16..] == old(statusLine[16..])
      ensures old(dispStep) != 3 && old(dispStep) != 5 ==> statusLine[..] == old(statusLine[..])
      ensures page == if old(dispStep) == 6 then FixedPage(fault | scFault, old(page)) else old(page)
    {
      var step := dispStep;
      dispStep := if dispStep < 8 then dispStep + 1 else 0;
      if step == 3 {
        ShowPressure(Has(fault, FAULT_PRESSURE), flow);
      } else if step == 5 {
        ShowCode(FaultCode(fault | scFault));
      } else if step == 6 {
        var p := FixPage(fault | scFault, page as int);
        page := p as u8;
      }
      tDisp := t4ms;
    }

    /** Step 5 of `dispProc` (wilo.c:777-786): the two characters of the fault
        code go to positions 14 and 15 of the first status line. */
    method ShowCode(code: seq<char>)
      requires Shape() && |code| == 2
      modifies statusLine
      ensures statusLine[14..16] == code
      ensures statusLine[..14] == old(statusLine[..14]) && statusLine[16..] == old(statusLine[16..])
    {
      statusLine[14], statusLine[15] := code[0], code[1];
    }

    /** Step 3 of `dispProc` (wilo.c:760-768), integer part: " - " instead of
        the pressure while the pressure fault is set, and the flow glyph (2)
        or a blank at position 7. */
    method ShowPressure(pressureFault: bool, flowing: bool)
      requires Shape()
      modifies statusLine
      ensures pressureFault ==> statusLine[..3] == " - "
      ensures !pressureFault ==> statusLine[..3] == old(statusLine[..3])
      ensures statusLine[7] == (if flowing then '\U{2}' else ' ')
      ensures statusLine[3..7] == old(statusLine[3..7]) && statusLine[8..] == old(statusLine[8..])
    {
      if pressureFault {
        statusLine[0], statusLine[1], statusLine[2] := ' ', '-', ' ';
      }
      statusLine[7] := if flowing then '\U{2}' else ' ';
    }

    // ------------------------------------------------------------------ menu

    /** The menu line shows parameter `menuItem`: its default in the left
        field and the edited value in the right one, each followed by the
        unit, and '>' between them while editing. */
    ghost predicate MenuLineShows()
      reads this`menu, this`menuItem, this`itemValue, menuLine
      requires Shape() && menuItem < N_PARAM
    {
      MenuFieldFits(menuItem);
      var nI, nF, unit := MenuIntegers(menuItem), MenuFraction(menuItem), Row(menuItem).unit;
      menuLine[1..7] == Field(Wrap16(Row(menuItem).def), nI, nF) + unit
      && menuLine[10..16] == Field(Wrap16(itemValue), nI, nF) + unit
      && menuLine[9] == (if menu == 2 then '>' else ' ')
    }

    /** `writeMenuLine` (wilo.c:860-874): measure the unit, copy it behind both
        fields, and render the default and the edited value into the fields
        left of the units. */
    method WriteMenuLine()
      requires Shape() && menuItem < N_PARAM
      modifies menuLine
      ensures menuLine[1..7] == Field(Wrap16(Row(menuItem).def), MenuIntegers(menuItem), MenuFraction(menuItem)) + Row(menuItem).unit
      ensures menuLine[10..16] == Field(Wrap16(itemValue), MenuIntegers(menuItem), MenuFraction(menuItem)) + Row(menuItem).unit
      ensures menuLine[0] == old(menuLine[0]) && menuLine[7..10] == old(menuLine[7..10]) && menuLine[16..] == old(menuLine[16..])
    {
      MenuFieldFits(menuItem);
      LayOutItem(menuLine, Row(menuItem).unit, Row(menuItem).fraction, Wrap16(Row(menuItem).def), Wrap16(itemValue));
    }

    // ------------------------------------------------------------------ keys

    /** KEY_MENU (wilo.c:878-885): one menu level out, or into browsing from
        the status view; the edited value restarts from the parameter. */
    method MenuKeyPressed()
      requires Shape() && UiOk() && Settled()
      modifies this`menu, this`itemValue
      ensures menu == MenuAfter(old(menu), MenuKey) && itemValue == param[menuItem]
      ensures UiOk() && Settled()
    {
      if menu != 0 {
        menu := menu - 1;
      } else {
        menu := menu + 1;
      }
      RowFacts(menuItem);
      itemValue := param[menuItem];
    }

    /** KEY_UP and KEY_DOWN in the status view (wilo.c:888-896, 908-916):
        the page moves by the as-written fault-page skip. */
    method PageKey(up: bool)
      requires UiOk()
      modifies this`page
      ensures page == if up then PageUp(fault | scFault, old(page)) else PageDown(fault | scFault, old(page))
      ensures UiOk()
    {
      var p;
      if up {
        p := StepPageUp(fault | scFault, page);
      } else {
        p := StepPageDown(fault | scFault, page);
      }
      page := p;
    }

    /** KEY_UP and KEY_DOWN while browsing (wilo.c:897-900, 917-920): the
        previous or next parameter, stopping at either end of the table, and
        the edited value restarts from it. */
    method BrowseKey(up: bool)
      requires Shape() && UiOk() && Settled() && menu == 1
      modifies this`menuItem, this`itemValue
      ensures up ==> menuItem == if old(menuItem) > 0 then old(menuItem) - 1 else 0
      ensures !up ==> menuItem == if old(menuItem) < N_PARAM - 1 then old(menuItem) + 1 else N_PARAM - 1
      ensures itemValue == param[menuItem]
      ensures UiOk() && Settled()
    {
      if up {
        if menuItem > 0 {
          menuItem := menuItem - 1;
        }
      } else {
        if menuItem < N_PARAM - 1 {
          menuItem := menuItem + 1;
        }
      }
      RowFacts(menuItem);
      itemValue := param[menuItem];
    }

    /** KEY_UP and KEY_DOWN while editing (wilo.c:901-903, 921-923): one
        step up only below the maximum, one step down only above the
        minimum, so the edited value never leaves the parameter's range. */
    method EditKey(up: bool)
      requires Shape() && UiOk() && Settled() && menu == 2
      modifies this`itemValue
      ensures up ==> itemValue == if old(itemValue) < Row(menuItem).max then old(itemValue) + 1 else old(itemValue)
      ensures !up ==> itemValue == if old(itemValue) > Row(menuItem).min then old(itemValue) - 1 else old(itemValue)
      ensures InRange(menuItem, itemValue)
      ensures UiOk() && Settled()
    {
      RowFacts(menuItem);
      if up {
        if itemValue < Row(menuItem).max {
          itemValue := itemValue + 1;
        }
      } else {
        if itemValue > Row(menuItem).min {
          itemValue := itemValue - 1;
        }
      }
    }

    /** KEY_ENTER (wilo.c:926-937): browsing starts editing the parameter;
        editing commits the value to the parameter and to its EEPROM word and
        returns to browsing. */
    method EnterKey()
      requires Shape() && UiOk() && Settled()
      modifies this`menu, this`itemValue, param, this`eep
      ensures menu == MenuAfter(old(menu), Enter)
      ensures old(menu) == 1 ==> itemValue == param[menuItem] && param[..] == old(param[..]) && eep == old(eep)
      ensures old(menu) == 2 ==>
        itemValue == old(itemValue) && param[..] == old(param[..])[menuItem := old(itemValue)]
        && eep == WriteWord(old(eep), Row(menuItem).eepAddr, old(itemValue))
      ensures old(menu) == 0 ==> itemValue == old(itemValue) && param[..] == old(param[..]) && eep == old(eep)
      ensures UiOk() && Settled()
    {
      RowFacts(menuItem);
      if menu == 1 {
        itemValue := param[menuItem];
        menu := menu + 1;
      } else if menu == 2 {
        CommitKeepsAccepted(eep, param[..], menuItem, itemValue);
        param[menuItem] := itemValue;
        eep := WriteWord(eep, Row(menuItem).eepAddr, param[menuItem]);
        menu := menu - 1;
      }
    }

    /** `menuProc` (wilo.c:876-963) for one key from `readKey`: the key's
        action, then, inside the menu, the menu line redrawn with '>' marking
        an edit. The settings stay loaded and in range; only ENTER while
        editing writes a parameter and the EEPROM. */
    method MenuProc(key: Key)
      requires Shape() && UiOk() && Settled()
      modifies this`menu, this`menuItem, this`itemValue, this`page, this`autoRun, this`manualRun, param, this`eep, menuLine
      ensures UiOk() && Settled()
      ensures menu == MenuAfter(old(menu), key)
      ensures menu != 0 ==> MenuLineShows()
      ensures key == Enter && old(menu) == 2 ==>
        param[..] == old(param[..])[menuItem := old(itemValue)]
        && eep == WriteWord(old(eep), Row(menuItem).eepAddr, old(itemValue))
      ensures !(key == Enter && old(menu) == 2) ==> param[..] == old(param[..]) && eep == old(eep)
      ensures page == if old(menu) == 0 && key == Up then PageUp(fault | scFault, old(page))
                      else if old(menu) == 0 && key == Down then PageDown(fault | scFault, old(page))
                      else old(page)
      ensures autoRun == (if key == Auto then !old(autoRun) else old(autoRun))
      ensures manualRun == (if key == Run then !old(manualRun) else old(manualRun))
    {
      KeyAction(key);
      RedrawMenu();
    }

    /** The action of one key in `menuProc` (wilo.c:877-943). */
    method KeyAction(key: Key)
      requires Shape() && UiOk() && Settled()
      modifies this`menu, this`menuItem, this`itemValue, this`page, this`autoRun, this`manualRun, param, this`eep
      ensures UiOk() && Settled()
      ensures menu == MenuAfter(old(menu), key)
      ensures key == Enter && old(menu) == 2 ==>
        param[..] == old(param[..])[menuItem := old(itemValue)]
        && eep == WriteWord(old(eep), Row(menuItem).eepAddr, old(itemValue))
      ensures !(key == Enter && old(menu) == 2) ==> param[..] == old(param[..]) && eep == old(eep)
      ensures page == if old(menu) == 0 && key == Up then PageUp(fault | scFault, old(page))
                      else if old(menu) == 0 && key == Down then PageDown(fault | scFault, old(page))
                      else old(page)
      ensures autoRun == (if key == Auto then !old(autoRun) else old(autoRun))
      ensures manualRun == (if key == Run then !old(manualRun) else old(manualRun))
    {
      match key {
        case MenuKey =>
          MenuKeyPressed();
        case Up =>
          if menu == 0 {
            PageKey(true);
          } else if menu == 1 {
            BrowseKey(true);
          } else {
            EditKey(true);
          }
        case Down =>
          if menu == 0 {
            PageKey(false);
          } else if menu == 1 {
            BrowseKey(false);
          } else {
            EditKey(false);
          }
        case Enter =>
          EnterKey();
        case Auto =>
          autoRun := !autoRun;
        case Run =>
          manualRun := !manualRun;
        case _ =>
      }
    }

    /** The redraw at the end of `menuProc` (wilo.c:944-962): inside the menu
        the line shows the selected parameter, with '>' while editing. */
    method RedrawMenu()
      requires Shape() && menuItem < N_PARAM
      modifies menuLine
      ensures menu != 0 ==> MenuLineShows()
      ensures menu == 0 ==> menuLine[..] == old(menuLine[..])
    {
      if menu != 0 {
        WriteMenuLine();
        menuLine[9] := if menu == 2 then '>' else ' ';
      }
    }

    // ------------------------------------------------------------------ settings

    /** `loadEeprom` (wilo.c:413-443): take every parameter from the EEPROM if
        the signature is intact and every stored value lies in its range;
        otherwise write every default, to the parameters and to the EEPROM,
        and then the signature. Either way the settings end up loaded. */
    method LoadEeprom()
      requires Shape() && IsImage(eep)
      modifies param, this`eep
      ensures IsImage(eep) && Accepts(eep) && Holds(eep, param[..]) && AllInRange(param[..])
      ensures Accepts(old(eep)) ==> eep == old(eep)
      ensures !Accepts(old(eep)) ==> eep == Repaired(old(eep)) && param[..] == Defaults()
    {
      eep := Load(param, eep);
    }
  }
}
