/** Start-up of the driver: normalisation of the module parameters in
    pwm_init, and validation of the requested timer list against the fixed
    table of PWM-capable timers (pwm_init_timer_list). */
module Startup {

  const SERVO_ABSOLUTE_MIN: int := 5000
  const SERVO_ABSOLUTE_MAX: int := 25000
  const DEFAULT_FREQUENCY: int := 1024
  const SERVO_FREQUENCY: int := 50

  /** The clamp of servo_start into [lo, hi]. */
  function Clamp(x: int, lo: int, hi: int): int
  {
    if x < lo then lo else if x > hi then hi else x
  }

  /** The parameter block of pwm_init. In servo mode the frequency is fixed
      at 50 Hz and the servo bounds are brought inside the absolute range,
      falling back to the whole range when the requested one is empty; the
      start pulse is clamped into the bounds. Otherwise a non-positive
      frequency becomes 1024 Hz and the servo parameters are left alone. */
  method NormaliseParams(servo: bool, frequency: int, servoMin: int, servoMax: int, servoStart: int)
    returns (newFrequency: int, newMin: int, newMax: int, newStart: int)
    ensures servo ==> newFrequency == SERVO_FREQUENCY
    ensures !servo ==> newFrequency == if frequency <= 0 then DEFAULT_FREQUENCY else frequency
    ensures newFrequency >= 1
    ensures !servo ==> newMin == servoMin && newMax == servoMax && newStart == servoStart
    ensures servo ==> SERVO_ABSOLUTE_MIN <= newMin < newMax <= SERVO_ABSOLUTE_MAX
    ensures servo ==> newMin <= newStart <= newMax
    ensures servo ==> newStart == Clamp(servoStart, newMin, newMax)
    ensures servo ==>
              var lo := if servoMin < SERVO_ABSOLUTE_MIN then SERVO_ABSOLUTE_MIN else servoMin;
              var hi := if servoMax > SERVO_ABSOLUTE_MAX then SERVO_ABSOLUTE_MAX else servoMax;
              if lo < hi then newMin == lo && newMax == hi
              else newMin == SERVO_ABSOLUTE_MIN && newMax == SERVO_ABSOLUTE_MAX
    ensures servo && SERVO_ABSOLUTE_MIN <= servoMin < servoMax <= SERVO_ABSOLUTE_MAX
            ==> newMin == servoMin && newMax == servoMax
  {
    newFrequency, newMin, newMax, newStart := frequency, servoMin, servoMax, servoStart;
    if servo {
      newFrequency := SERVO_FREQUENCY;
    } else if newFrequency <= 0 {
      newFrequency := DEFAULT_FREQUENCY;
    }
    if servo {
      if newMin < SERVO_ABSOLUTE_MIN {
        newMin := SERVO_ABSOLUTE_MIN;
      }
      if newMax > SERVO_ABSOLUTE_MAX {
        newMax := SERVO_ABSOLUTE_MAX;
      }
      if newMin >= newMax {
        newMin := SERVO_ABSOLUTE_MIN;
        newMax := SERVO_ABSOLUTE_MAX;
      }
      if newStart < newMin {
        newStart := newMin;
      } else if newStart > newMax {
        newStart := newMax;
      }
    }
  }

  // ---------------------------------------------------------------------
  // The timer list
  // ---------------------------------------------------------------------

  const MAX_TIMERS: nat := 4

  /** One row of the fixed timer table: a timer id and its pad mux offset. */
  datatype TimerInit = TimerInit(id: int, muxOffset: int)

  /** The PWM-capable timers GPT8..GPT11 and their pad offsets from the
      start of the OMAP34xx pad configuration block (0x48002030). */
  const TIMER_INIT: seq<TimerInit> := [
    TimerInit(8, 0x4800217A - 0x48002030),
    TimerInit(9, 0x48002174 - 0x48002030),
    TimerInit(10, 0x48002176 - 0x48002030),
    TimerInit(11, 0x48002178 - 0x48002030)
  ]

  /** The ids requested when none are given. */
  const DEFAULT_TIMERS: seq<int> := [8, 9, 10, 11]

  /** The first table row at or after `from` whose id is `id`, or MAX_TIMERS. */
  function TableIndex(id: int, from: nat := 0): (j: nat)
    requires from <= MAX_TIMERS
    decreases MAX_TIMERS - from
    ensures from <= j <= MAX_TIMERS
    ensures j < MAX_TIMERS ==> TIMER_INIT[j].id == id
    ensures forall k :: from <= k < j ==> TIMER_INIT[k].id != id
  {
    if from == MAX_TIMERS || TIMER_INIT[from].id == id then from else TableIndex(id, from + 1)
  }

  /** The mux offset of the table row for `id` (0 when there is none). */
  function MuxOffsetOf(id: int): int
  {
    var j := TableIndex(id);
    if j < MAX_TIMERS then TIMER_INIT[j].muxOffset else 0
  }

  /** Request `i` passes both checks: its id is in the table, and the row is
      neither marked used beforehand nor taken by an earlier request. */
  predicate Admissible(req: seq<int>, used0: seq<bool>, i: nat)
    requires i < |req| && |used0| == MAX_TIMERS
    ensures Admissible(req, used0, i) <==>
              (exists j :: 0 <= j < MAX_TIMERS && TIMER_INIT[j].id == req[i] && !used0[j]
                           && forall k :: 0 <= k < j ==> TIMER_INIT[k].id != req[i])
              && forall k :: 0 <= k < i ==> req[k] != req[i]
  {
    var j := TableIndex(req[i]);
    assert req[i] in req[..i] <==> exists k :: 0 <= k < i && req[k] == req[i] by {
      assert forall k :: 0 <= k < i ==> req[..i][k] == req[k];
    }
    j < MAX_TIMERS && !used0[j] && req[i] !in req[..i]
  }

  /** The first request at or after `from` that fails a check, or |req|. */
  function FirstRejected(req: seq<int>, used0: seq<bool>, from: nat): (k: nat)
    requires from <= |req| && |used0| == MAX_TIMERS
    decreases |req| - from
    ensures from <= k <= |req|
    ensures forall i :: from <= i < k ==> Admissible(req, used0, i)
    ensures k < |req| ==> !Admissible(req, used0, k)
  {
    if from == |req| || !Admissible(req, used0, from) then from
    else FirstRejected(req, used0, from + 1)
  }

  /** The first rejected request is the first one that fails a check. */
  lemma FirstRejectedIs(req: seq<int>, used0: seq<bool>, i: nat)
    requires i <= |req| && |used0| == MAX_TIMERS
    requires forall i' :: 0 <= i' < i ==> Admissible(req, used0, i')
    requires i < |req| ==> !Admissible(req, used0, i)
    ensures FirstRejected(req, used0, 0) == i
  {
  }

  /** The list is accepted exactly when every id is in the table, no row was
      already used, and no id repeats. */
  lemma {:induction false} AcceptedIff(req: seq<int>, used0: seq<bool>)
    requires |used0| == MAX_TIMERS
    ensures FirstRejected(req, used0, 0) == |req| <==>
              (forall i :: 0 <= i < |req| ==> TableIndex(req[i]) < MAX_TIMERS && !used0[TableIndex(req[i])])
              && (forall i, i' :: 0 <= i < i' < |req| ==> req[i] != req[i'])
  {
    var k := FirstRejected(req, used0, 0);
    if k == |req| {
      forall i | 0 <= i < |req|
        ensures TableIndex(req[i]) < MAX_TIMERS && !used0[TableIndex(req[i])]
      {
        assert Admissible(req, used0, i);
      }
      forall i, i' | 0 <= i < i' < |req| ensures req[i] != req[i'] {
        assert Admissible(req, used0, i');
        assert req[..i'][i] == req[i];
      }
    } else {
      assert !Admissible(req, used0, k);
      if req[k] in req[..k] {
        var i :| 0 <= i < k && req[..k][i] == req[k];
        assert req[i] == req[k];
      }
    }
  }

  /** The table rows marked used after the first `i` requests were accepted. */
  ghost predicate UsedAfter(used: seq<bool>, used0: seq<bool>, req: seq<int>, i: nat)
    requires |used| == |used0| == MAX_TIMERS && i <= |req|
  {
    forall j :: 0 <= j < MAX_TIMERS ==> used[j] == (used0[j] || TIMER_INIT[j].id in req[..i])
  }

  /** The pwm_dev slots of the first `k` requests hold their ids and mux offsets. */
  ghost predicate SlotsFilled(devId: seq<int>, devMux: seq<int>, req: seq<int>, k: nat)
    requires |devId| == |devMux| == MAX_TIMERS && k <= |req| && k <= MAX_TIMERS
  {
    forall i :: 0 <= i < k ==> devId[i] == req[i] && devMux[i] == MuxOffsetOf(req[i])
  }

  /** The state after the first `k` requests were accepted, starting from
      the table marks `used0` and the slots `devId0`/`devMux0`: those
      requests passed both checks, their slots are filled, the other slots
      are untouched, and exactly their rows were newly marked. */
  ghost predicate Scanned(req: seq<int>, used0: seq<bool>, devId0: seq<int>, devMux0: seq<int>,
                          used: seq<bool>, devId: seq<int>, devMux: seq<int>, k: nat)
  {
    |used0| == |used| == |devId0| == |devMux0| == |devId| == |devMux| == MAX_TIMERS
    && k <= |req| && k <= MAX_TIMERS
    && (forall i :: 0 <= i < k ==> Admissible(req, used0, i))
    && SlotsFilled(devId, devMux, req, k)
    && devId[k..] == devId0[k..] && devMux[k..] == devMux0[k..]
    && UsedAfter(used, used0, req, k)
  }

  /** Accepting request `i`: it passes the checks exactly when its row is
      known and not yet marked, and then marking its row and filling its
      slot extends the scanned prefix by one. */
  lemma ScanStep(req: seq<int>, used0: seq<bool>, devId0: seq<int>, devMux0: seq<int>,
                 used: seq<bool>, devId: seq<int>, devMux: seq<int>, i: nat)
    requires Scanned(req, used0, devId0, devMux0, used, devId, devMux, i)
    requires i < |req| && i < MAX_TIMERS
    requires TableIndex(req[i]) < MAX_TIMERS && !used[TableIndex(req[i])]
    ensures var j := TableIndex(req[i]);
            Scanned(req, used0, devId0, devMux0,
                    used[j := true], devId[i := TIMER_INIT[j].id], devMux[i := TIMER_INIT[j].muxOffset], i + 1)
  {
    var j := TableIndex(req[i]);
    assert req[..i + 1] == req[..i] + [req[i]];
    assert Admissible(req, used0, i);
    assert devId[i := TIMER_INIT[j].id][i + 1..] == devId[i + 1..];
    assert devMux[i := TIMER_INIT[j].muxOffset][i + 1..] == devMux[i + 1..];
  }

  /** The scan stops at `i` (end of the list, unknown id or used row)
      exactly at the first rejected request. */
  lemma ScanStop(req: seq<int>, used0: seq<bool>, devId0: seq<int>, devMux0: seq<int>,
                 used: seq<bool>, devId: seq<int>, devMux: seq<int>, i: nat)
    requires Scanned(req, used0, devId0, devMux0, used, devId, devMux, i)
    requires i < |req| ==> TableIndex(req[i]) == MAX_TIMERS || used[TableIndex(req[i])]
    ensures FirstRejected(req, used0, 0) == i
  {
    if i < |req| && TableIndex(req[i]) < MAX_TIMERS {
      var j := TableIndex(req[i]);
      if !used0[j] {
        var i' :| 0 <= i' < i && req[..i][i'] == TIMER_INIT[j].id;
        assert req[..i][i'] in req[..i];
      }
    }
    FirstRejectedIs(req, used0, i);
  }

  /** The module-level state pwm_init_timer_list reads and writes: the
      `timers` and `num_timers` parameters, the `used` column of the timer
      table, and the `id` and `mux_offset` fields of each pwm_dev slot. */
  class TimerList {
    const timers: array<int>
    var numTimers: int
    const used: array<bool>
    const devId: array<int>
    const devMux: array<int>

    ghost predicate Valid()
      reads this
    {
      timers.Length == MAX_TIMERS && used.Length == MAX_TIMERS
      && devId.Length == MAX_TIMERS && devMux.Length == MAX_TIMERS
      && timers != devId && timers != devMux && devId != devMux
      && 0 <= numTimers <= MAX_TIMERS
    }

    /** The parameters as module_param_array leaves them: the given ids
        overwrite the front of the default list and num_timers counts them. */
    constructor (requested: seq<int>)
      requires |requested| <= MAX_TIMERS
      ensures Valid() && fresh(timers) && fresh(used) && fresh(devId) && fresh(devMux)
      ensures numTimers == |requested|
      ensures timers[..] == requested + DEFAULT_TIMERS[|requested|..]
      ensures forall j :: 0 <= j < MAX_TIMERS ==> !used[j]
    {
      var t := new int[MAX_TIMERS](i requires 0 <= i < MAX_TIMERS =>
                                     if i < |requested| then requested[i] else DEFAULT_TIMERS[i]);
      timers := t;
      numTimers := |requested|;
      used := new bool[MAX_TIMERS](_ => false);
      devId := new int[MAX_TIMERS](_ => 0);
      devMux := new int[MAX_TIMERS](_ => 0);
      new;
      assert timers[..] == requested + DEFAULT_TIMERS[|requested|..];
    }

    /** The inner loop of pwm_init_timer_list: a linear search of the table. */
    static method FindTimer(id: int) returns (j: nat)
      ensures j == TableIndex(id)
      ensures j < MAX_TIMERS ==> TIMER_INIT[j].id == id
      ensures j == MAX_TIMERS <==> forall k :: 0 <= k < MAX_TIMERS ==> TIMER_INIT[k].id != id
    {
      j := 0;
      while j < MAX_TIMERS && id != TIMER_INIT[j].id
        invariant 0 <= j <= MAX_TIMERS
        invariant forall k :: 0 <= k < j ==> TIMER_INIT[k].id != id
      {
        j := j + 1;
      }
    }

    /** pwm_init_timer_list: an empty list means all four timers. Requests are
        taken in order; each one accepted fills its pwm_dev slot from its table
        row and marks the row used; the first request with an unknown id or a
        used row stops the scan with -1. */
    method InitTimerList() returns (rc: int)
      requires Valid()
      modifies this`numTimers, used, devId, devMux
      ensures Valid()
      ensures numTimers == if old(numTimers) == 0 then MAX_TIMERS else old(numTimers)
      ensures rc == 0 || rc == -1
      ensures var k := FirstRejected(timers[..numTimers], old(used[..]), 0);
              (rc == 0 <==> k == numTimers)
              && Scanned(timers[..numTimers], old(used[..]), old(devId[..]), old(devMux[..]),
                         used[..], devId[..], devMux[..], k)
    {
      if numTimers == 0 {
        numTimers := MAX_TIMERS;
      }
      ghost var req := timers[..numTimers];
      ghost var used0, devId0, devMux0 := used[..], devId[..], devMux[..];
      var i := 0;
      while i < numTimers
        invariant Valid() && numTimers == |req| && req == timers[..numTimers]
        invariant Scanned(req, used0, devId0, devMux0, used[..], devId[..], devMux[..], i)
      {
        var j := FindTimer(timers[i]);
        if j == MAX_TIMERS || used[j] {
          ScanStop(req, used0, devId0, devMux0, used[..], devId[..], devMux[..], i);
          return -1;
        }
        ScanStep(req, used0, devId0, devMux0, used[..], devId[..], devMux[..], i);
        used[j] := true;
        devId[i] := TIMER_INIT[j].id;
        devMux[i] := TIMER_INIT[j].muxOffset;
        i := i + 1;
      }
      ScanStop(req, used0, devId0, devMux0, used[..], devId[..], devMux[..], i);
      return 0;
    }
  }

  /** The default list names each table row once. */
  lemma DefaultListAccepted()
    ensures FirstRejected(DEFAULT_TIMERS, [false, false, false, false], 0) == MAX_TIMERS
  {
    assert TableIndex(8) == 0 && TableIndex(9) == 1 && TableIndex(10) == 2 && TableIndex(11) == 3;
    AcceptedIff(DEFAULT_TIMERS, [false, false, false, false]);
  }

  /** With the default parameters all four timers are taken, in table order. */
  method DefaultTimerList()
  {
    var t := new TimerList([]);
    assert t.used[..] == [false, false, false, false];
    var rc := t.InitTimerList();
    assert t.timers[..4] == DEFAULT_TIMERS;
    DefaultListAccepted();
    assert rc == 0;
  }
}
