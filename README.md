# OMAP3 PWM driver: timer arithmetic and channel state machine

This project models the core of the `omap3-pwm` kernel driver, which drives
the OMAP3 general-purpose timers GPT8–GPT11 as PWM outputs. A PWM output is a
square wave whose "on" share of each cycle (its duty cycle) is adjustable. The
model covers five things, each proved in Dafny:

- **Period arithmetic** (`RegisterMath`). `pwm_set_frequency` caps the output
  frequency at half the input clock. It then derives two values:
  - the reload value `tldr`, where the counter restarts after each overflow;
  - the count of usable ticks in a period, `num_settings`.
- **Target-to-match conversion** (`RegisterMath`). A duty cycle in percent, or
  a servo pulse in tenths of a microsecond, is turned into a match offset. The
  hardware toggles the output when the counter reaches `tldr` plus that offset.
  All of this is u32 arithmetic. Products that can overflow 32 bits are written
  with explicit wrap-around modulo 2^32. The sum `tldr` + offset is proved
  never to wrap once the period invariant `PeriodOk` holds, which
  `SetFrequency` establishes.
  - At 50 Hz the servo product `tenths_us·(num_settings/2)` fits in u32 only
    for input clocks below about 17.18 MHz (`ServoProductFits50Hz`). With a
    faster clock a long pulse overflows: on a 26 MHz clock, any pulse above
    about 16519 tenths of a microsecond. The driver then computes a wrong
    offset; `ServoMatchOffset` models that wrap, and its result still lies
    inside the period.
- **The channel state machine** (`PwmChannel.Channel`). The class holds the
  driver fields of `struct pwm_dev` (`tldr`, `tmar`, `num_settings`,
  `current_val`, `input_freq`). It also holds an abstract record of the timer
  hardware (`Hardware.Timer`): load, match, running, interrupt enable and
  status. Each `omap_dm_timer_*` call is a field update of that record.
  - Without interrupts, a new match value is written to the hardware at once.
  - In interrupt mode it is written directly only when the timer starts. After
    that, `match_handler` copies (latches) the stored `tmar` into the hardware
    on the next match event, so an update lands on a cycle boundary.
  - The predicate `Consistent` ties driver fields to hardware state. It is
    the period invariant `PeriodOk` together with the on/off invariant
    `StateOk`. What each operation proves about it:
    - `Off`, `SetDutyCycle` and `MatchHandler` preserve it.
    - `SetServoPulse` preserves it except when it accepts a pulse of 0.
    - The constructor establishes only `StateOk`, because no period is set yet.
    - `SetFrequency` always establishes `PeriodOk`. It yields the whole of
      `Consistent` only when the channel is off. On a running channel the
      stored match value belongs to the old period. The driver calls
      `pwm_set_frequency` only at start-up (pwm.c:322), before any channel
      runs.
    - `On` has no invariant of its own: from off it starts the timer while
      `current_val` is still 0. `SetDutyCycle` and `SetServoPulse` call it
      and then set `current_val`, which restores the invariant.
- **Start-up normalisation** (`Startup.NormaliseParams`). This is the parameter
  block of `pwm_init`: the frequency defaults and the clamping of the servo
  bounds.
- **Timer list** (`Startup.TimerList`). `pwm_init_timer_list` checks the
  requested timer ids against the fixed table of four timers. It takes them in
  order and rejects an unknown id or a row already used.

Configuration that the C code keeps in globals is passed in explicitly:
- `irq_mode` is a constant of each channel, fixed when the channel is built.
- The global `frequency` is an argument. `SetFrequency` returns the clamped
  value that the global holds afterwards.
- `servo_min` and `servo_max` are arguments of `SetServoPulse`.
- The module parameters are arguments of `NormaliseParams`.

The C comparisons of an `int` against a `u32` convert the `int` to unsigned.
The model does the same (`Word.IntToU32`). As a result:
- a negative requested frequency is also capped at half the input clock;
- a negative servo bound reads as a very large unsigned number.

Some behaviour of the code is easy to miss:

- `num_settings` is 0 when the frequency is exactly half the input clock. The
  match offset is then 1, one tick past `num_settings`. `Max1` in the
  contracts stands for that case.
- Only the duty-cycle path has an off request (duty 0). A servo pulse of 0 is
  rejected unless `servo_min` is 0. A negative `servo_min` reads as a huge
  unsigned number, so it rejects every pulse below 2^31.
- `pwm_off` acts only when `current_val` is non-zero.
- A non-positive frequency is replaced by 1024 in `pwm_init`, not in
  `pwm_set_frequency`.

## Model

| member | source | states |
|---|---|---|
| Hardware.MatchBitSet | pwm.c:285-287 | ORing the match bit into the status word sets that bit and keeps every other bit |
| RegisterMath.ClampFrequency | pwm.c:157-158 | the kept frequency is in [1, input_freq/2]; a request in range is unchanged, anything above (or negative, via the unsigned comparison) becomes input_freq/2 |
| RegisterMath.PeriodTicks | pwm.c:160-164 | tldr ≤ 0xFFFFFFFE, the period is 2^32 − tldr = input_freq/frequency ticks, num_settings = input_freq/frequency − 2, and that tick count times the frequency approximates the input clock from below within one tick |
| RegisterMath.ReloadFor | pwm.c:160 | tldr ≤ 0xFFFFFFFE and the period 2^32 − tldr is input_freq/frequency ticks, with no u32 operation wrapping |
| RegisterMath.NumSettingsFor | pwm.c:164 | num_settings is the period's tick count less two, so tldr + num_settings stays below the counter top |
| RegisterMath.SysClk13MHzAt50Hz | pwm.c:155-165 | 13 MHz at 50 Hz keeps 50 Hz, gives tldr 0xFFFC0860 and 259998 settings |
| RegisterMath.ClampOffset | pwm.c:208-211 | the clamp yields a value in [1, num_settings] whenever num_settings ≥ 1, maps 0 to 1, keeps in-range values and caps larger ones at num_settings |
| RegisterMath.DutyOffset | pwm.c:206 | when duty·num_settings fits in u32 the raw offset is its exact quotient by 100; in every case the raw offset is at most 0xFFFFFFFF/100 |
| RegisterMath.DutyMatchOffset | pwm.c:206-211 | for duty 1..100 the offset lies in [1, max(1, num_settings)] even when the u32 product wraps |
| RegisterMath.DutyOffsetExact | pwm.c:206-211 | when duty·num_settings fits in u32 the offset is max(1, duty·num_settings/100): the upper clamp never applies |
| RegisterMath.DutyOffsetMonotone | pwm.c:206-211 | a larger duty cycle never gives a smaller offset while the product fits |
| RegisterMath.DutyFull | pwm.c:206-211 | 100% duty reaches the end of the period, offset max(1, num_settings) |
| RegisterMath.DutyProductFits | pwm.c:206 | the duty product fits in u32 for output frequencies ≥ 100 Hz, and at any frequency for input clocks ≤ 42,949,674 Hz |
| RegisterMath.ServoFactor | pwm.c:224-232 | factor ≥ 1 for frequencies up to 5 MHz, and factor is half the output period in tenths of a microsecond, rounded down |
| RegisterMath.ServoOffset | pwm.c:232-233 | when tenths·(num_settings/2) fits in u32 the raw offset is its exact quotient by the factor; in every case it is at most 0xFFFFFFFF/factor |
| RegisterMath.ServoMatchOffset | pwm.c:233-238 | the servo offset lies in [1, max(1, num_settings)] even when the u32 product wraps |
| RegisterMath.ServoPulseWithinPeriod | pwm.c:232-238 | a pulse no longer than the period maps to an offset ≤ num_settings, so the offset is max(1, tenths·(num_settings/2)/factor) |
| RegisterMath.ServoOffsetMonotone | pwm.c:233-238 | a longer pulse never gives a smaller offset while the product fits |
| RegisterMath.ServoProductFits50Hz | pwm.c:233 | at 50 Hz the product tenths·(num_settings/2) fits in u32 for every pulse ≤ 25000 and every input clock below 17.18 MHz |
| RegisterMath.ServoCentre50Hz | pwm.c:224-238 | at 50 Hz with 259998 settings the factor is 100000 and a 15000 pulse gives offset 19499, which is 7.5% of the period rounded down |
| PwmChannel.ServoAccepts | pwm.c:229-230 | with non-negative bounds a pulse is accepted exactly when servo_min ≤ tenths_us ≤ servo_max |
| PwmChannel.ServoNegativeBounds | pwm.c:229-230 | a negative servo_min rejects every pulse below 2^31, and a negative servo_max accepts every such pulse from servo_min up |
| PwmChannel.OnEffect | pwm.c:178-192 | pwm_on leaves load, auto-reload and status alone; without interrupts it always writes tmar to the match register; in interrupt mode it writes it only when starting from off; it starts the timer only from off and leaves a running timer running; in interrupt mode it enables the match interrupt |
| PwmChannel.OffEffect | pwm.c:167-176 | pwm_off never touches load, auto-reload, status or the match register; from off it changes nothing; from on it stops the timer, and in interrupt mode it also disables the interrupt |
| PwmChannel.Channel.constructor | pwm.c:92-113 | a new channel has every driver field zero and a stopped timer, and satisfies the state-machine invariant |
| PwmChannel.Channel.SetFrequency | pwm.c:155-165 | the kept frequency is the clamp of the request; tldr = 0xFFFFFFFF − (input_freq/f − 1); num_settings = input_freq/f − 2; the load register holds tldr with auto-reload; the period invariant holds; an idle channel becomes fully consistent |
| PwmChannel.Channel.Off | pwm.c:167-176 | current_val becomes 0; a running channel's timer is stopped, with its interrupt disabled first in interrupt mode; an off channel is left untouched, so a repeated off changes nothing; consistency is preserved |
| PwmChannel.Channel.On | pwm.c:178-192 | without interrupts the match register always gets tmar; in interrupt mode only when starting from off, otherwise it keeps its old value for the interrupt to update; the timer is started only from off; in interrupt mode the match interrupt is enabled |
| PwmChannel.Channel.SetDutyCycle | pwm.c:194-222 | duty > 100 returns −EINVAL and changes nothing; duty 0 turns the channel off and returns 0; duty 1..100 stores tmar = tldr + clamped offset (no wrap under the period invariant), sets current_val = duty, applies pwm_on, returns 0; consistency is preserved |
| PwmChannel.Channel.SetServoPulse | pwm.c:225-249 | a pulse outside [servo_min, servo_max] returns −EINVAL and changes nothing; otherwise it stores tmar = tldr + clamped servo offset, sets current_val = tenths_us, applies pwm_on, returns 0; consistency is preserved for every non-zero pulse |
| PwmChannel.Channel.MatchHandler | pwm.c:269-290 | the hardware match register gets the stored tmar, the match bit is ORed into the status register, no driver field changes, and consistency is preserved |
| Startup.NormaliseParams | pwm.c:588-609 | servo mode fixes 50 Hz, otherwise a frequency ≤ 0 becomes 1024; in servo mode servo_min is raised to 5000 and servo_max lowered to 25000, each kept otherwise, and when that leaves min ≥ max both become the absolute bounds; so 5000 ≤ min < max ≤ 25000 afterwards; servo_start is clamped into [min, max]; outside servo mode the servo parameters are untouched |
| Startup.TableIndex | pwm.c:545-548 | the result is the first table row holding the id, or 4 when no row does |
| Startup.Admissible | pwm.c:546-560 | a request passes exactly when some table row holds its id (the first such row) and is not marked used, and no earlier request has the same id |
| Startup.FirstRejected | pwm.c:544-565 | every earlier request passes both checks and the returned one (if any) fails one |
| Startup.FirstRejectedIs | pwm.c:550-560 | the first request that fails a check is the one FirstRejected names |
| Startup.AcceptedIff | pwm.c:537-568 | the list is accepted exactly when every id is in the table, no row was already used, and no id repeats |
| Startup.ScanStep | pwm.c:556-564 | accepting a request with a known, unmarked row marks that row, fills its slot with the row's id and mux offset, and extends the accepted prefix |
| Startup.ScanStop | pwm.c:550-560 | the scan stops at an unknown id, at a used row or at the end of the list, and in each case stops at the first rejected request |
| Startup.DefaultListAccepted | pwm.c:530-568 | the default list {8, 9, 10, 11} passes every check against an unused table |
| Startup.TimerList.constructor | pwm.c:55-58 | the given ids overwrite the front of the default list {8, 9, 10, 11} and num_timers counts them |
| Startup.TimerList.FindTimer | pwm.c:545-548 | the inner linear search returns the table row of the id, or 4 exactly when no row holds it |
| Startup.TimerList.InitTimerList | pwm.c:537-568 | num_timers 0 becomes 4; the call returns 0 exactly when every request is accepted and −1 otherwise; the slots of the accepted prefix hold their ids and mux offsets; the other slots are untouched; exactly the accepted rows are newly marked used |

## Left out

- `pwm_read`, `pwm_write`, `pwm_open`, `pwm_init_cdev`, `pwm_init_class` and `pwm_dev_cleanup` are left out. They are character-device and class-registration plumbing: user copies, text formatting and parsing.
- `pwm_init_mux` and `pwm_restore_mux` are left out. They are `ioremap`/`ioread16`/`iowrite16` pad-register writes, and the mux offsets appear only as constants in the timer table.
- The acquisition and clock steps of `pwm_timer_init` are left out: `omap_dm_timer_request_specific`, `omap_dm_timer_set_pwm`, `omap_dm_timer_set_source`, `clk_get_rate` and `request_irq`. The same goes for `pwm_timer_cleanup` and `pwm_exit`. These are calls into the kernel. The input clock rate is a constructor argument instead. The start-up order (set the frequency, then the servo start pulse) appears only in `ServoScenario`.
- The per-device cdev/class loop of `pwm_init` and its error unwinding are left out; they are registration plumbing.
- The spinlock and the semaphore are not modelled. Each locked region is one atomic step, and interleavings with the interrupt are not explored.
- Module parameter declarations and `printk` logging are left out.
- The hardware has write-1-to-clear status bits and actual counting and toggling. The model keeps only the last value written to the status register, and no counter.
- Channel.SetFrequency: requires `input_freq ≥ 2` and a non-zero frequency. Below that, the C code divides by zero.
- Channel.SetServoPulse: requires `1 ≤ frequency ≤ 5,000,000`. Above that, `factor` is 0 and the C code divides by zero. Servo mode always runs at 50 Hz or less.
- Channel.SetServoPulse: keeps the state-machine invariant only for non-zero pulses. If `servo_min` is 0, the code accepts a 0 pulse and leaves the timer running with `current_val = 0`. `pwm_init`'s normalisation rules that out in servo mode.
