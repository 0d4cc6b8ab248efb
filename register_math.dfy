/** The integer arithmetic of the driver: the reload value and tick count
    derived from the output frequency, and the match offsets derived from a
    duty cycle or a servo pulse width. All of it is u32 arithmetic. */
module RegisterMath {
  import opened Word

  /** The counter counts from TLDR up to this value and then reloads. */
  const COUNTER_TOP: int := 0xFFFF_FFFF
  /** num_settings is measured down from here. */
  const SETTINGS_TOP: int := 0xFFFF_FFFE
  /** Tenths of a microsecond in one second. */
  const TENTHS_OF_MICROSEC_PER_SEC: int := 10_000_000

  /** The largest usable offset, with the degenerate period of no settings
      still allowing the offset 1 that the clamp produces. */
  function Max1(n: int): int
  {
    if n < 1 then 1 else n
  }

  // ---------------------------------------------------------------------
  // Frequency, reload value and tick count (pwm_set_frequency)
  // ---------------------------------------------------------------------

  /** The output frequency pwm_set_frequency keeps. The comparison is between
      an `int` and a `u32`, so a negative request is read as a huge unsigned
      number and also clamped. */
  function ClampFrequency(frequency: int, inputFreq: U32): (f: int)
    requires IsI32(frequency) && frequency != 0 && inputFreq >= 2
    ensures 1 <= f <= inputFreq / 2
    ensures 1 <= frequency <= inputFreq / 2 ==> f == frequency
    ensures frequency < 0 || frequency > inputFreq / 2 ==> f == inputFreq / 2
  {
    if IntToU32(frequency) > inputFreq / 2 then inputFreq / 2 else frequency
  }

  // Small facts of non-linear integer arithmetic used below.

  lemma MulMonotone(a: int, b: int, c: int)
    requires 0 <= a <= b && 0 <= c
    ensures a * c <= b * c
  {
    assert b * c == a * c + (b - a) * c;
  }

  lemma DivMonotone(a: int, b: int, d: int)
    requires 0 <= a <= b && 1 <= d
    ensures a / d <= b / d
  {
    var qa, qb := a / d, b / d;
    assert a == qa * d + a % d && b == qb * d + b % d;
    if qa > qb {
      MulMonotone(qb + 1, qa, d);
    }
  }

  lemma DivOfMultiple(k: int, d: int)
    requires 0 <= k && 1 <= d
    ensures k * d / d == k
  {
    var q, r := k * d / d, k * d % d;
    assert k * d == q * d + r && 0 <= r < d;
    if q < k {
      MulMonotone(q + 1, k, d);
    } else if q > k {
      MulMonotone(k + 1, q, d);
    }
  }

  /** Dividing by at most half the dividend gives a quotient of at least 2. */
  lemma QuotientAtLeastTwo(a: int, b: int)
    requires 1 <= b && 2 * b <= a
    ensures 2 <= a / b <= a
  {
    DivOfMultiple(2, b);
    DivMonotone(2 * b, a, b);
    var q := a / b;
    assert a == q * b + a % b;
    MulMonotone(1, b, q);
  }

  /** TLDR = 0xFFFFFFFF - (input_freq / frequency - 1); no u32 operation wraps. */
  function ReloadFor(inputFreq: U32, frequency: int): (tldr: U32)
    requires 1 <= frequency <= inputFreq / 2
    ensures tldr <= SETTINGS_TOP
    ensures WORD_MODULUS - tldr == inputFreq / frequency
  {
    QuotientAtLeastTwo(inputFreq, frequency);
    COUNTER_TOP - (inputFreq / frequency - 1)
  }

  /** num_settings = 0xFFFFFFFE - TLDR: the ticks of a period less two,
      so TLDR + num_settings is still below the counter top. */
  function NumSettingsFor(tldr: U32): (n: U32)
    requires tldr <= SETTINGS_TOP
    ensures n == (WORD_MODULUS - tldr) - 2
    ensures tldr + n < COUNTER_TOP
  {
    SETTINGS_TOP - tldr
  }

  /** One output period lasts input_freq / frequency counter ticks (the
      counter runs from TLDR through 0xFFFFFFFF), so the realised period
      is the requested one rounded down to a whole tick; num_settings is
      that tick count less two. */
  lemma PeriodTicks(inputFreq: U32, frequency: int)
    requires 1 <= frequency <= inputFreq / 2
    ensures ReloadFor(inputFreq, frequency) <= SETTINGS_TOP
    ensures WORD_MODULUS - ReloadFor(inputFreq, frequency) == inputFreq / frequency
    ensures NumSettingsFor(ReloadFor(inputFreq, frequency)) == inputFreq / frequency - 2
    ensures (inputFreq / frequency) * frequency <= inputFreq < (inputFreq / frequency + 1) * frequency
  {
    QuotientAtLeastTwo(inputFreq, frequency);
    var q := inputFreq / frequency;
    assert inputFreq == q * frequency + inputFreq % frequency;
    assert (q + 1) * frequency == q * frequency + frequency;
  }

  /** The 13 MHz system clock of the target board at 50 Hz gives 259998 settings. */
  lemma SysClk13MHzAt50Hz()
    ensures ClampFrequency(50, 13_000_000) == 50
    ensures ReloadFor(13_000_000, 50) == 0xFFFC_0860
    ensures NumSettingsFor(ReloadFor(13_000_000, 50)) == 259998
  {
  }

  // ---------------------------------------------------------------------
  // Match offsets (pwm_set_duty_cycle, pwm_set_servo_pulse)
  // ---------------------------------------------------------------------

  /** The clamp both setters apply: below 1 becomes 1, otherwise above
      num_settings becomes num_settings. */
  function ClampOffset(raw: U32, numSettings: U32): (off: U32)
    ensures numSettings >= 1 ==> 1 <= off <= numSettings
    ensures raw == 0 ==> off == 1
    ensures 1 <= raw <= numSettings ==> off == raw
    ensures 1 <= raw && numSettings < raw ==> off == numSettings
  {
    if raw < 1 then 1 else if raw > numSettings then numSettings else raw
  }

  /** The raw duty offset: duty_cycle * num_settings in u32, divided by 100. */
  function DutyOffset(duty: U32, numSettings: U32): (raw: U32)
    ensures duty * numSettings < WORD_MODULUS ==> raw == duty * numSettings / 100
    ensures raw <= COUNTER_TOP / 100
  {
    DivMonotone(MulU32(duty, numSettings), COUNTER_TOP, 100);
    MulU32(duty, numSettings) / 100
  }

  /** The offset pwm_set_duty_cycle adds to TLDR for a duty cycle of 1..100;
      it always lies within the period. */
  function DutyMatchOffset(duty: U32, numSettings: U32): (off: U32)
    requires 1 <= duty <= 100
    ensures 1 <= off <= Max1(numSettings)
  {
    ClampOffset(DutyOffset(duty, numSettings), numSettings)
  }

  /** Without wrap-around the upper clamp never applies: the offset is
      duty% of num_settings, rounded down, and at least 1. */
  lemma DutyOffsetExact(duty: U32, numSettings: U32)
    requires 1 <= duty <= 100
    requires duty * numSettings < WORD_MODULUS
    ensures DutyMatchOffset(duty, numSettings) == Max1(duty * numSettings / 100)
  {
    MulMonotone(duty, 100, numSettings);
    DivOfMultiple(numSettings, 100);
    DivMonotone(duty * numSettings, numSettings * 100, 100);
  }

  /** A larger duty cycle never gives a smaller offset (while nothing wraps). */
  lemma DutyOffsetMonotone(d1: U32, d2: U32, numSettings: U32)
    requires 1 <= d1 <= d2 <= 100
    requires d2 * numSettings < WORD_MODULUS
    ensures DutyMatchOffset(d1, numSettings) <= DutyMatchOffset(d2, numSettings)
  {
    MulMonotone(d1, d2, numSettings);
    DutyOffsetExact(d1, numSettings);
    DutyOffsetExact(d2, numSettings);
    DivMonotone(d1 * numSettings, d2 * numSettings, 100);
  }

  /** A 100% duty cycle reaches the end of the period. */
  lemma DutyFull(numSettings: U32)
    requires 100 * numSettings < WORD_MODULUS
    ensures DutyMatchOffset(100, numSettings) == Max1(numSettings)
  {
    DutyOffsetExact(100, numSettings);
  }

  /** The duty product fits in a u32 for any output frequency of at least
      100 Hz, and for any frequency when the input clock is below about 43 MHz. */
  lemma DutyProductFits(inputFreq: U32, frequency: int, duty: U32)
    requires 1 <= frequency <= inputFreq / 2
    requires frequency >= 100 || inputFreq <= 42_949_674
    requires duty <= 100
    ensures duty * NumSettingsFor(ReloadFor(inputFreq, frequency)) < WORD_MODULUS
  {
    PeriodTicks(inputFreq, frequency);
    QuotientAtLeastTwo(inputFreq, frequency);
    var q := inputFreq / frequency;
    var n := NumSettingsFor(ReloadFor(inputFreq, frequency));
    assert n == q - 2;
    if frequency >= 100 {
      MulMonotone(100, frequency, q);
      assert 100 * q <= inputFreq;
    } else {
      assert q <= inputFreq;
    }
    assert n <= 42_949_672;
    MulMonotone(duty, 100, n);
    MulMonotone(n, 42_949_672, 100);
  }

  /** factor = 10000000 / (frequency * 2): half the output period in tenths
      of a microsecond, rounded down. */
  function ServoFactor(frequency: int): (factor: int)
    requires 1 <= frequency <= 5_000_000
    ensures 1 <= factor
    ensures factor * (2 * frequency) <= TENTHS_OF_MICROSEC_PER_SEC < (factor + 1) * (2 * frequency)
  {
    var d := frequency * 2;
    var factor := TENTHS_OF_MICROSEC_PER_SEC / d;
    assert TENTHS_OF_MICROSEC_PER_SEC == factor * d + TENTHS_OF_MICROSEC_PER_SEC % d;
    assert (factor + 1) * d == factor * d + d;
    factor
  }

  /** The raw servo offset: tenths_us * (num_settings / 2) in u32, divided
      by the factor. */
  function ServoOffset(tenthsUs: U32, numSettings: U32, frequency: int): (raw: U32)
    requires 1 <= frequency <= 5_000_000
    ensures tenthsUs * (numSettings / 2) < WORD_MODULUS ==>
              raw == tenthsUs * (numSettings / 2) / ServoFactor(frequency)
    ensures raw <= COUNTER_TOP / ServoFactor(frequency)
  {
    DivMonotone(MulU32(tenthsUs, numSettings / 2), COUNTER_TOP, ServoFactor(frequency));
    MulU32(tenthsUs, numSettings / 2) / ServoFactor(frequency)
  }

  /** The offset pwm_set_servo_pulse adds to TLDR; it always lies within the period. */
  function ServoMatchOffset(tenthsUs: U32, numSettings: U32, frequency: int): (off: U32)
    requires 1 <= frequency <= 5_000_000
    ensures 1 <= off <= Max1(numSettings)
  {
    ClampOffset(ServoOffset(tenthsUs, numSettings, frequency), numSettings)
  }

  /** A pulse no longer than the period (twice the factor) maps inside the
      period without the upper clamp, provided the product does not wrap. */
  lemma ServoPulseWithinPeriod(tenthsUs: U32, numSettings: U32, frequency: int)
    requires 1 <= frequency <= 5_000_000
    requires tenthsUs <= 2 * ServoFactor(frequency)
    requires tenthsUs * (numSettings / 2) < WORD_MODULUS
    ensures ServoOffset(tenthsUs, numSettings, frequency) <= numSettings
    ensures ServoMatchOffset(tenthsUs, numSettings, frequency)
            == Max1(tenthsUs * (numSettings / 2) / ServoFactor(frequency))
  {
    var f, h := ServoFactor(frequency), numSettings / 2;
    MulMonotone(tenthsUs, 2 * f, h);
    assert 2 * f * h == (2 * h) * f;
    DivOfMultiple(2 * h, f);
    DivMonotone(tenthsUs * h, (2 * h) * f, f);
  }

  /** A longer pulse never gives a smaller offset (while nothing wraps). */
  lemma ServoOffsetMonotone(t1: U32, t2: U32, numSettings: U32, frequency: int)
    requires 1 <= frequency <= 5_000_000
    requires t1 <= t2
    requires t2 * (numSettings / 2) < WORD_MODULUS
    ensures ServoMatchOffset(t1, numSettings, frequency) <= ServoMatchOffset(t2, numSettings, frequency)
  {
    var f, h := ServoFactor(frequency), numSettings / 2;
    MulMonotone(t1, t2, h);
    DivMonotone(t1 * h, t2 * h, f);
  }

  /** At 50 Hz the servo product stays inside a u32 for every pulse up to
      2.5 ms, for any input clock below 17.18 MHz (13 MHz included). */
  lemma ServoProductFits50Hz(inputFreq: U32, tenthsUs: U32)
    requires 100 <= inputFreq < 17_180_000
    requires tenthsUs <= 25000
    ensures tenthsUs * (NumSettingsFor(ReloadFor(inputFreq, 50)) / 2) < WORD_MODULUS
  {
    PeriodTicks(inputFreq, 50);
    DivMonotone(inputFreq, 17_179_999, 50);
    var h := NumSettingsFor(ReloadFor(inputFreq, 50)) / 2;
    assert h <= 171_798;
    MulMonotone(tenthsUs, 25000, h);
    MulMonotone(h, 171_798, 25000);
  }

  /** On the 13 MHz system clock of the target board, a 1.5 ms centre pulse at 50 Hz with 259998
      settings gives offset 19499, that is 7.5% of the period rounded down. */
  lemma ServoCentre50Hz()
    ensures ServoFactor(50) == 100_000
    ensures ServoMatchOffset(15000, 259998, 50) == 19499
    ensures 19499 * 40 <= 259998 * 3 < 19500 * 40
  {
    assert 15000 * (259998 / 2) == 1_949_985_000;
    assert MulU32(15000, 129999) == 1_949_985_000;
  }
}
