/** One PWM channel: the per-timer fields of `struct pwm_dev` that the
    driver updates, together with the timer hardware they drive. The
    interrupt mode is fixed when the channel is built; the global output
    frequency and the servo bounds are passed to the operations that read them. */
module PwmChannel {
  import opened Word
  import opened Hardware
  import opened RegisterMath

  /** The kernel's EINVAL; setters return its negation on a bad request. */
  const EINVAL: int := 22

  /** pwm_on's effect on the timer: in non-interrupt mode the match register
      is written every time; in interrupt mode only when the timer is being
      started, later values being latched by the match interrupt. The timer
      is started only from the off state, and in interrupt mode the match
      interrupt is enabled. */
  ghost function OnEffect(t: Timer, tmar: U32, wasOff: bool, irqMode: bool): (r: Timer)
    ensures r.load == t.load && r.autoReload == t.autoReload && r.status == t.status
    ensures wasOff ==> r.running && r.matchValue == tmar && r.compare
    ensures !wasOff ==> r.running == t.running
    ensures !irqMode ==> r.matchValue == tmar && r.intEnable == t.intEnable
    ensures irqMode && !wasOff ==> r.matchValue == t.matchValue && r.compare == t.compare
    ensures irqMode ==> r.intEnable == INT_MATCH
  {
    var writesMatch := !irqMode || wasOff;
    t.(matchValue := if writesMatch then tmar else t.matchValue,
       compare := if writesMatch then true else t.compare,
       running := t.running || wasOff,
       intEnable := if irqMode then INT_MATCH else t.intEnable)
  }

  /** pwm_off's effect on the timer: nothing when already off; otherwise the
      timer is stopped and, in interrupt mode, its interrupt disabled. */
  ghost function OffEffect(t: Timer, wasOn: bool, irqMode: bool): (r: Timer)
    ensures r.load == t.load && r.autoReload == t.autoReload && r.status == t.status
    ensures r.matchValue == t.matchValue && r.compare == t.compare
    ensures !wasOn ==> r == t
    ensures wasOn ==> !r.running
    ensures wasOn && irqMode ==> r.intEnable == 0
    ensures !irqMode ==> r.intEnable == t.intEnable
  {
    if !wasOn then t
    else t.(running := false, intEnable := if irqMode then 0 else t.intEnable)
  }

  /** Whether pwm_set_servo_pulse accepts a pulse: the `int` bounds are
      compared with the `u32` pulse as unsigned numbers. With non-negative
      bounds that is exactly membership of [servo_min, servo_max]. */
  predicate ServoAccepts(tenthsUs: U32, servoMin: int, servoMax: int)
    requires IsI32(servoMin) && IsI32(servoMax)
    ensures 0 <= servoMin && 0 <= servoMax ==>
              (ServoAccepts(tenthsUs, servoMin, servoMax) <==> servoMin <= tenthsUs <= servoMax)
  {
    !(tenthsUs < IntToU32(servoMin) || tenthsUs > IntToU32(servoMax))
  }

  /** A negative bound reads as a huge unsigned number: a negative servo_min
      rejects every pulse, and a negative servo_max accepts every pulse from servo_min up. */
  lemma ServoNegativeBounds(tenthsUs: U32, servoMin: int, servoMax: int)
    requires IsI32(servoMin) && IsI32(servoMax)
    ensures servoMin < 0 && tenthsUs < 0x8000_0000 ==> !ServoAccepts(tenthsUs, servoMin, servoMax)
    ensures 0 <= servoMin <= tenthsUs && servoMax < 0 && tenthsUs < 0x8000_0000
            ==> ServoAccepts(tenthsUs, servoMin, servoMax)
  {
  }

  class Channel {
    const irqMode: bool
    const inputFreq: U32
    var tldr: U32
    var tmar: U32
    var numSettings: U32
    var currentVal: U32
    var hw: Timer

    /** A channel as it stands once its timer is acquired and its input clock
        rate known: every driver field zero, the timer stopped. */
    constructor (inputFreq: U32, irqMode: bool)
      ensures this.inputFreq == inputFreq && this.irqMode == irqMode
      ensures tldr == 0 && tmar == 0 && numSettings == 0 && currentVal == 0
      ensures hw == Reset()
      ensures StateOk()
    {
      this.inputFreq := inputFreq;
      this.irqMode := irqMode;
      tldr, tmar, numSettings, currentVal := 0, 0, 0, 0;
      hw := Reset();
    }

    /** The reload value and the tick count agree, and the timer reloads from TLDR. */
    ghost predicate PeriodOk()
      reads this
    {
      tldr + numSettings == SETTINGS_TOP && hw.load == tldr && hw.autoReload
    }

    /** A match value that toggles the output strictly inside the period. */
    ghost predicate InPeriod(v: int)
      reads this
    {
      tldr < v <= tldr + Max1(numSettings)
    }

    /** The on/off state machine: current_val is 0 exactly when the timer is
        stopped; a running channel's stored and hardware match values lie
        in the period; without interrupts the hardware holds the stored value;
        with interrupts the match interrupt is enabled exactly while running. */
    ghost predicate StateOk()
      reads this
    {
      (currentVal != 0 <==> hw.running)
      && (currentVal != 0 ==> InPeriod(tmar) && InPeriod(hw.matchValue))
      && (currentVal != 0 && !irqMode ==> hw.matchValue == tmar)
      && (irqMode ==> hw.intEnable == if currentVal != 0 then INT_MATCH else 0)
    }

    ghost predicate Consistent()
      reads this
    {
      PeriodOk() && StateOk()
    }

    /** pwm_set_frequency: clamps the global output frequency to half the
        input clock, programs TLDR and derives num_settings. Returns the
        frequency the global holds afterwards. */
    method SetFrequency(frequency: int) returns (newFrequency: int)
      requires IsI32(frequency) && frequency != 0 && inputFreq >= 2
      modifies this`tldr, this`numSettings, this`hw
      ensures newFrequency == ClampFrequency(frequency, inputFreq)
      ensures 1 <= newFrequency <= inputFreq / 2
      ensures tldr == COUNTER_TOP - (inputFreq / newFrequency - 1)
      ensures numSettings == inputFreq / newFrequency - 2
      ensures hw == SetLoad(old(hw), true, tldr)
      ensures PeriodOk()
      ensures old(StateOk()) && currentVal == 0 ==> Consistent()
    {
      newFrequency := frequency;
      if IntToU32(newFrequency) > inputFreq / 2 {
        newFrequency := inputFreq / 2;
      }
      PeriodTicks(inputFreq, newFrequency);
      tldr := ReloadFor(inputFreq, newFrequency);
      hw := SetLoad(hw, true, tldr);
      numSettings := NumSettingsFor(tldr);
    }

    /** pwm_off. Turning off an already-off channel changes nothing. */
    method Off()
      modifies this`currentVal, this`hw
      ensures currentVal == 0
      ensures hw == OffEffect(old(hw), old(currentVal) != 0, irqMode)
      ensures old(currentVal) == 0 ==> hw == old(hw)
      ensures old(currentVal) != 0 ==> !hw.running
      ensures old(Consistent()) ==> Consistent()
    {
      if currentVal != 0 {
        if irqMode {
          hw := SetIntEnable(hw, 0);
        }
        hw := Stop(hw);
        currentVal := 0;
      }
    }

    /** pwm_on. */
    method On()
      modifies this`hw
      ensures hw == OnEffect(old(hw), tmar, currentVal == 0, irqMode)
      ensures !irqMode ==> hw.matchValue == tmar
      ensures irqMode && currentVal != 0 ==> hw.matchValue == old(hw.matchValue)
      ensures currentVal == 0 ==> hw.matchValue == tmar && hw.running
      ensures irqMode ==> hw.intEnable == INT_MATCH
    {
      if !irqMode {
        hw := SetMatch(hw, true, tmar);
      }
      if currentVal == 0 {
        if irqMode {
          hw := SetMatch(hw, true, tmar);
        }
        hw := Start(hw);
      }
      if irqMode {
        hw := SetIntEnable(hw, INT_MATCH);
      }
    }

    /** pwm_set_duty_cycle: above 100 is rejected with nothing changed, 0
        turns the channel off, and 1..100 stores TLDR plus the clamped duty
        offset and turns the channel on. */
    method SetDutyCycle(duty: U32) returns (rc: int)
      modifies this`tmar, this`currentVal, this`hw
      ensures duty > 100 ==> rc == -EINVAL
      ensures duty > 100 ==> tmar == old(tmar) && currentVal == old(currentVal) && hw == old(hw)
      ensures duty <= 100 ==> rc == 0
      ensures duty == 0 ==> tmar == old(tmar) && currentVal == 0
                            && hw == OffEffect(old(hw), old(currentVal) != 0, irqMode)
      ensures 1 <= duty <= 100 ==>
                tmar == AddU32(tldr, DutyMatchOffset(duty, numSettings))
                && currentVal == duty
                && hw == OnEffect(old(hw), tmar, old(currentVal) == 0, irqMode)
      ensures 1 <= duty <= 100 && PeriodOk() ==> tmar == tldr + DutyMatchOffset(duty, numSettings)
      ensures old(Consistent()) ==> Consistent()
    {
      if duty > 100 {
        return -EINVAL;
      }
      if duty == 0 {
        Off();
        return 0;
      }
      var newTmar := DutyOffset(duty, numSettings);
      if newTmar < 1 {
        newTmar := 1;
      } else if newTmar > numSettings {
        newTmar := numSettings;
      }
      tmar := AddU32(tldr, newTmar);
      On();
      currentVal := duty;
      return 0;
    }

    /** pwm_set_servo_pulse: a pulse outside [servo_min, servo_max] is
        rejected with nothing changed; otherwise TLDR plus the clamped servo
        offset is stored and the channel turned on. */
    method SetServoPulse(tenthsUs: U32, frequency: int, servoMin: int, servoMax: int) returns (rc: int)
      requires 1 <= frequency <= 5_000_000
      requires IsI32(servoMin) && IsI32(servoMax)
      modifies this`tmar, this`currentVal, this`hw
      ensures !ServoAccepts(tenthsUs, servoMin, servoMax) ==> rc == -EINVAL
      ensures !ServoAccepts(tenthsUs, servoMin, servoMax) ==>
                tmar == old(tmar) && currentVal == old(currentVal) && hw == old(hw)
      ensures ServoAccepts(tenthsUs, servoMin, servoMax) ==>
                rc == 0
                && tmar == AddU32(tldr, ServoMatchOffset(tenthsUs, numSettings, frequency))
                && currentVal == tenthsUs
                && hw == OnEffect(old(hw), tmar, old(currentVal) == 0, irqMode)
      ensures ServoAccepts(tenthsUs, servoMin, servoMax) && PeriodOk() ==>
                tmar == tldr + ServoMatchOffset(tenthsUs, numSettings, frequency)
      ensures old(Consistent()) && (rc != 0 || tenthsUs != 0) ==> Consistent()
    {
      if tenthsUs < IntToU32(servoMin) || tenthsUs > IntToU32(servoMax) {
        return -EINVAL;
      }
      var factor := ServoFactor(frequency);
      var newTmar := MulU32(tenthsUs, numSettings / 2) / factor;
      if newTmar < 1 {
        newTmar := 1;
      } else if newTmar > numSettings {
        newTmar := numSettings;
      }
      tmar := AddU32(tldr, newTmar);
      On();
      currentVal := tenthsUs;
      return 0;
    }

    /** match_handler: runs right after a match event, so the stored match
        value reaches the hardware on a cycle boundary; then the match status
        bit is written back. No driver field changes. */
    method MatchHandler()
      modifies this`hw
      ensures hw == old(hw).(matchValue := tmar, compare := true, status := old(hw.status) | INT_MATCH)
      ensures hw.matchValue == tmar
      ensures hw.status & INT_MATCH == INT_MATCH
      ensures old(Consistent()) ==> Consistent()
    {
      var val := tmar;
      hw := SetMatch(hw, true, val);
      var status := hw.status;
      status := status | INT_MATCH;
      hw := WriteStatus(hw, status);
      MatchBitSet(old(hw.status));
    }
  }

  /** Servo mode at 50 Hz in interrupt mode on the 13 MHz system clock of the target board:
      the start-up pulse is written directly, a later pulse waits for the
      match interrupt, and duty-style requests outside the range change nothing. */
  method ServoScenario()
  {
    var c := new Channel(13_000_000, true);
    var f := c.SetFrequency(50);
    SysClk13MHzAt50Hz();
    assert f == 50 && c.numSettings == 259998;
    assert c.Consistent();

    var rc := c.SetServoPulse(15000, f, 10000, 20000);
    ServoCentre50Hz();
    assert rc == 0 && c.hw.running && c.currentVal == 15000;
    assert c.tmar == c.tldr + 19499 && c.hw.matchValue == c.tmar;

    var before := c.hw.matchValue;
    rc := c.SetServoPulse(20000, f, 10000, 20000);
    assert rc == 0 && c.hw.matchValue == before && c.tmar != before;
    c.MatchHandler();
    assert c.hw.matchValue == c.tmar;

    rc := c.SetServoPulse(30000, f, 10000, 20000);
    assert rc == -EINVAL && c.currentVal == 20000;
  }

  /** Duty requests on a 1024 Hz channel: 150 is rejected, 0 stops the
      timer, and a second 0 is a no-op. */
  method DutyScenario()
  {
    var c := new Channel(13_000_000, false);
    var f := c.SetFrequency(1024);
    var rc := c.SetDutyCycle(50);
    assert rc == 0 && c.hw.running && c.hw.matchValue == c.tmar;
    rc := c.SetDutyCycle(150);
    assert rc == -EINVAL && c.currentVal == 50;
    rc := c.SetDutyCycle(0);
    assert rc == 0 && !c.hw.running && c.currentVal == 0;
    var hw := c.hw;
    rc := c.SetDutyCycle(0);
    assert c.hw == hw;
  }
}
