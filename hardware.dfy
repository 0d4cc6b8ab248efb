/** An abstract OMAP general-purpose timer, as the driver sees it through the
    `omap_dm_timer_*` calls. Each call is a field update of the record. */
module Hardware {
  import opened Word

  /** OMAP_TIMER_INT_MATCH: the match bit of the interrupt enable and status registers. */
  const INT_MATCH: bv32 := 1

  datatype Timer = Timer(
    load: U32,          // TLDR: counter value reloaded on overflow
    autoReload: bool,   // auto-reload selected by set_load
    matchValue: U32,    // TMAR: counter value at which the output toggles
    compare: bool,      // compare enabled by set_match
    running: bool,      // start/stop bit
    intEnable: bv32,    // interrupt enable register
    status: bv32)       // interrupt status register, as last written

  /** The timer as the driver receives it: stopped, no interrupt enabled. */
  function Reset(): Timer
  {
    Timer(0, false, 0, false, false, 0, 0)
  }

  /** omap_dm_timer_set_load(timer, autoreload, value) */
  function SetLoad(t: Timer, autoReload: bool, value: U32): Timer
  {
    t.(load := value, autoReload := autoReload)
  }

  /** omap_dm_timer_set_match(timer, enable, value) */
  function SetMatch(t: Timer, enable: bool, value: U32): Timer
  {
    t.(matchValue := value, compare := enable)
  }

  /** omap_dm_timer_start(timer) */
  function Start(t: Timer): Timer
  {
    t.(running := true)
  }

  /** omap_dm_timer_stop(timer) */
  function Stop(t: Timer): Timer
  {
    t.(running := false)
  }

  /** omap_dm_timer_set_int_enable(timer, value) */
  function SetIntEnable(t: Timer, value: bv32): Timer
  {
    t.(intEnable := value)
  }

  /** omap_dm_timer_write_status(timer, value) */
  function WriteStatus(t: Timer, value: bv32): Timer
  {
    t.(status := value)
  }

  /** Setting the match bit in a status word keeps every other bit. */
  lemma MatchBitSet(s: bv32)
    ensures (s | INT_MATCH) & INT_MATCH == INT_MATCH
    ensures (s | INT_MATCH) & !INT_MATCH == s & !INT_MATCH
  {
  }
}
