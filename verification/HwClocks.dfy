/** What the tick, the silent ticks and the counter add up to over whole runs. */
module HwClocks {
  import opened Sequences
  import opened IrqCtrl
  import opened HwModels
  import opened HwRuns

  // ----- the system tick

  /** The event at the head of the queue is a tick. */
  predicate Ticks(h: Hw, op: Op) {
    op.Head? && h.nextIndex == HWTIMER && h.tmr.tick == h.tmr.next
  }

  /** A tick that raises the tick interrupt, where a silent one does not. */
  predicate Loud(h: Hw) {
    h.tmr.silent <= 0
  }

  /** The times of the ticks of a run, in order. */
  function TickTimes(h: Hw, ops: seq<Op>): seq<u64> {
    if ops == [] then []
    else
      var g := Run(h, Front(ops));
      TickTimes(h, Front(ops)) + (if Ticks(g, Last(ops)) then [Apply(g, Last(ops)).now] else [])
  }

  /** For each tick of a run, whether it raised the tick interrupt. */
  function TickIrqs(h: Hw, ops: seq<Op>): (r: seq<bool>)
    ensures |r| == |TickTimes(h, ops)|
  {
    if ops == [] then []
    else
      var g := Run(h, Front(ops));
      TickIrqs(h, Front(ops)) + (if Ticks(g, Last(ops)) then [Loud(g)] else [])
  }

  /** The timers handled at the instant they are due. */
  lemma TimerReachedTicks(g: Hw)
    requires Sound(g) && g.tmr.next == g.now && (g.tmr.tick == g.now ==> g.now + g.tmr.period <= NEVER)
    ensures var r := TimerReached(g);
      if g.tmr.tick != g.now then
        r.tmr.(next := 0, awake := 0) == g.tmr.(next := 0, awake := 0)
      else
        && r.tmr.period == g.tmr.period && r.tmr.tick == g.tmr.tick + g.tmr.period
        && r.tmr.silent == (if Loud(g) then g.tmr.silent else g.tmr.silent - 1)
        && r.irq.premask == (if Loud(g) then g.irq.premask + {TIMER_TICK_IRQ} else g.irq.premask)
  {
    var b := if g.tmr.awake == g.now then AwakeReached(g) else g;
    assert b.tmr.tick == g.tmr.tick && b.tmr.silent == g.tmr.silent && b.irq.premask == g.irq.premask;
  }

  /** One step of the timers: a tick happens when it is due, is followed by one exactly a period later,
      and uses up one silent tick or raises line 0. */
  lemma TickStep(h: Hw, op: Op)
    requires Inv(h) && Allowed(h, op) && !op.Tick?
    ensures var g := Apply(h, op);
      && g.tmr.period == h.tmr.period
      && (if Ticks(h, op) then g.now == h.tmr.tick && g.tmr.tick == h.tmr.tick + h.tmr.period
          else g.tmr.tick == h.tmr.tick)
    ensures var g := Apply(h, op);
      !op.Silence? ==> g.tmr.silent == if Ticks(h, op) && !Loud(h) then h.tmr.silent - 1 else h.tmr.silent
    ensures Ticks(h, op) ==>
      Apply(h, op).irq.premask == (if Loud(h) then h.irq.premask + {TIMER_TICK_IRQ} else h.irq.premask)
  {
    if op.Head? && h.nextIndex == HWTIMER {
      TimerReachedTicks(Sleep(h).(inEvent := true));
    } else if LatchOp(op) {
      LatchStep(h, op);
    }
  }

  /** t0 + n * p, counted up. */
  function At(t0: nat, n: nat, p: nat): nat {
    if n == 0 then t0 else At(t0, n - 1, p) + p
  }

  lemma {:induction false} AtIsProduct(t0: nat, n: nat, p: nat)
    ensures At(t0, n, p) == t0 + n * p
  {
    if n != 0 {
      AtIsProduct(t0, n - 1, p);
      assert (n - 1) * p + p == n * p;
    }
  }

  /** ts[k] is t0 + (k + 1) * p. */
  predicate Grid(ts: seq<u64>, t0: nat, p: nat) {
    forall k :: 0 <= k < |ts| ==> ts[k] == t0 + (k + 1) * p
  }

  /** n is the number of whole periods p from t0 to now. */
  predicate WholePeriods(n: nat, t0: nat, p: nat, now: nat) {
    p > 0 && n == (now - t0) / p
  }

  lemma {:induction false} AtDivides(t0: nat, n: nat, p: nat, now: nat)
    requires At(t0, n, p) <= now < At(t0, n + 1, p)
    ensures p > 0 && n == (now - t0) / p
    decreases n
  {
    AtIsProduct(t0, n, p);
    var r := now - t0 - n * p;
    assert 0 <= r < p && now - t0 == n * p + r;
    Quotient(n, p, r);
  }

  lemma Quotient(n: nat, p: nat, r: nat)
    requires r < p
    ensures (n * p + r) / p == n
  {
    var a := n * p + r;
    assert a == (a / p) * p + a % p;
    SameQuotient(a / p, a % p, n, r, p);
  }

  lemma {:induction false} SameQuotient(q: nat, s: nat, n: nat, r: nat, p: nat)
    requires s < p && r < p && q * p + s == n * p + r
    ensures q == n
    decreases n
  {
    if n > 0 && q > 0 {
      assert q * p == (q - 1) * p + p && n * p == (n - 1) * p + p;
      SameQuotient(q - 1, s, n - 1, r, p);
    }
  }

  /** Ticks have kept to the grid that starts at t0: n of them so far. */
  predicate OnGrid(g: Hw, t0: nat, p: nat, n: nat) {
    g.tmr.period == p && g.tmr.tick == At(t0, n + 1, p) && At(t0, n, p) <= g.now
  }

  lemma OnGridStep(g: Hw, op: Op, t0: nat, p: nat, n: nat)
    requires Inv(g) && Allowed(g, op) && !op.Tick? && OnGrid(g, t0, p, n)
    ensures OnGrid(Apply(g, op), t0, p, if Ticks(g, op) then n + 1 else n)
    ensures Ticks(g, op) ==> Apply(g, op).now == At(t0, n + 1, p)
  {
    StepInv(g, op);
    TickStep(g, op);
  }

  lemma {:induction false} TicksCounted(h: Hw, t0: nat, p: nat, ops: seq<Op>)
    requires Inv(h) && IsRun(h, ops) && OnGrid(h, t0, p, 0)
    requires forall op :: op in ops ==> !op.Tick?
    ensures forall k :: 0 <= k < |TickTimes(h, ops)| ==> TickTimes(h, ops)[k] == At(t0, k + 1, p)
    ensures OnGrid(Run(h, ops), t0, p, |TickTimes(h, ops)|)
  {
    hide Inv, OnGrid, At, Apply, Ticks, Allowed;
    if ops != [] {
      TicksCounted(h, t0, p, Front(ops));
      RunInv(h, Front(ops));
      OnGridStep(Run(h, Front(ops)), Last(ops), t0, p, |TickTimes(h, Front(ops))|);
    }
  }

  lemma EnabledOnGrid(h0: Hw, p: u64)
    requires Inv(h0) && Allowed(h0, Tick(p))
    ensures OnGrid(EnableTick(h0, p), h0.now, p, 0) && Inv(EnableTick(h0, p))
  {
    StepInv(h0, Tick(p));
  }

  /** The tick grid has no drift: after the tick is enabled with period p at time t0, and until it is
      enabled again, the k-th tick happens at exactly t0 + k * p, and no tick is left out: whenever none
      is due the number of ticks so far is the number of whole periods since t0. */
  lemma TickGrid(h0: Hw, p: u64, ops: seq<Op>)
    requires Inv(h0) && Allowed(h0, Tick(p)) && IsRun(EnableTick(h0, p), ops)
    requires forall op :: op in ops ==> !op.Tick?
    ensures Grid(TickTimes(EnableTick(h0, p), ops), h0.now, p)
    ensures var g := Run(EnableTick(h0, p), ops);
      g.now < g.tmr.tick ==> WholePeriods(|TickTimes(EnableTick(h0, p), ops)|, h0.now, p, g.now)
  {
    var h := EnableTick(h0, p);
    EnabledOnGrid(h0, p);
    TicksCounted(h, h0.now, p, ops);
    GridProducts(TickTimes(h, ops), h0.now, p, Run(h, ops).now);
  }

  lemma GridProducts(ts: seq<u64>, t0: nat, p: nat, now: nat)
    requires forall k :: 0 <= k < |ts| ==> ts[k] == At(t0, k + 1, p)
    ensures Grid(ts, t0, p)
    ensures At(t0, |ts|, p) <= now < At(t0, |ts| + 1, p) ==> WholePeriods(|ts|, t0, p, now)
  {
    forall k | 0 <= k < |ts| ensures ts[k] == t0 + (k + 1) * p {
      AtIsProduct(t0, k + 1, p);
    }
    if At(t0, |ts|, p) <= now < At(t0, |ts| + 1, p) {
      AtDivides(t0, |ts|, p, now);
    }
  }

  /** After hwtimer_set_silent_ticks(n), and until it is called again, exactly the next n ticks are silent
      (none if n is negative) and every later one raises the tick interrupt. */
  lemma {:induction false} SilentTicks(h: Hw, n: int, ops: seq<Op>)
    requires Inv(h) && IsRun(Apply(h, Silence(n)), ops)
    requires forall op :: op in ops ==> !op.Silence?
    ensures var loud := TickIrqs(Apply(h, Silence(n)), ops);
      && (forall k :: 0 <= k < |loud| ==> (loud[k] <==> k >= n))
      && Run(Apply(h, Silence(n)), ops).tmr.silent == if n <= 0 then n else if |loud| < n then n - |loud| else 0
  {
    if ops != [] {
      var g := Apply(h, Silence(n));
      SilentTicks(h, n, Front(ops));
      StepInv(h, Silence(n));
      RunInv(g, Front(ops));
      if !Last(ops).Tick? {
        TickStep(Run(g, Front(ops)), Last(ops));
      }
    }
  }

  // ----- the awake timer

  /** The earliest wake asked for since the awake timer last fired. */
  function EarliestRequest(h: Hw, ops: seq<Op>): u64 {
    if ops == [] then h.tmr.awake
    else
      var g, op, earliest := Run(h, Front(ops)), Last(ops), EarliestRequest(h, Front(ops));
      if op.WakeAt? then Min(earliest, op.time)
      else if op.Head? && g.nextIndex == HWTIMER && g.nextTime == earliest then NEVER
      else earliest
  }

  /** All waiters share one timer, which is always set for the earliest of their requests. */
  lemma {:induction false} AwakeIsEarliestRequest(h: Hw, ops: seq<Op>)
    requires Inv(h) && IsRun(h, ops)
    ensures Run(h, ops).tmr.awake == EarliestRequest(h, ops)
  {
    if ops != [] {
      AwakeIsEarliestRequest(h, Front(ops));
      RunInv(h, Front(ops));
      AwakeStep(Run(h, Front(ops)), Last(ops));
    }
  }

  lemma AwakeStep(h: Hw, op: Op)
    requires Inv(h) && Allowed(h, op)
    ensures Apply(h, op).tmr.awake ==
            if op.WakeAt? then Min(h.tmr.awake, op.time)
            else if op.Head? && h.nextIndex == HWTIMER && h.nextTime == h.tmr.awake then NEVER
            else h.tmr.awake
  {
    if LatchOp(op) {
      LatchStep(h, op);
    }
  }

  // ----- the counter

  /** The event at the head of the queue advances the running counter. */
  predicate Counts(h: Hw, op: Op) {
    op.Head? && h.nextIndex == HW_COUNTER && h.cnt.running
  }

  function Advances(h: Hw, ops: seq<Op>): nat {
    if ops == [] then 0
    else Advances(h, Front(ops)) + (if Counts(Run(h, Front(ops)), Last(ops)) then 1 else 0)
  }

  /** The calls that stop or reconfigure the counter.  Starting it again while it runs does nothing. */
  predicate Reconfigures(op: Op) {
    op.CounterStops? || op.CounterPeriod?
  }

  lemma CounterStep(h: Hw, op: Op)
    requires Inv(h) && Allowed(h, op) && !Reconfigures(op) && h.cnt.running
    ensures var g := Apply(h, op);
      && g.cnt.running && g.cnt.period == h.cnt.period
      && (if Counts(h, op) then
            g.now == h.cnt.timer && g.cnt.timer == g.now + h.cnt.period && g.cnt.value == Add64(h.cnt.value, 1)
          else g.cnt.timer == h.cnt.timer && g.cnt.value == h.cnt.value)
  {
    hide RaisePrefix, Latched;
    if LatchOp(op) {
      LatchStep(h, op);
    }
  }

  /** v is v0 + n in uint64_t. */
  predicate Reads(v: u64, v0: nat, n: nat) {
    v == (v0 + n) % (NEVER + 1)
  }

  lemma ReadsNext(v: u64, v0: nat, n: nat)
    requires Reads(v, v0, n)
    ensures Reads(Add64(v, 1), v0, n + 1)
  {
    var q := (v0 + n) / (NEVER + 1);
    assert v0 + n == q * (NEVER + 1) + v;
  }

  /** The counter has advanced n times from v0 since it was started at t0. */
  predicate Counted(g: Hw, t0: nat, v0: nat, p: nat, n: nat) {
    && g.cnt.running && g.cnt.period == p && Reads(g.cnt.value, v0, n)
    && g.cnt.timer == At(t0, n + 1, p) && At(t0, n, p) <= g.now
  }

  lemma CountedStep(g: Hw, op: Op, t0: nat, v0: nat, p: nat, n: nat)
    requires Inv(g) && Allowed(g, op) && !Reconfigures(op) && Counted(g, t0, v0, p, n)
    ensures Counted(Apply(g, op), t0, v0, p, if Counts(g, op) then n + 1 else n)
  {
    StepInv(g, op);
    CounterStep(g, op);
    ReadsNext(g.cnt.value, v0, n);
  }

  lemma {:induction false} AdvancesCounted(h: Hw, t0: nat, v0: nat, p: nat, ops: seq<Op>)
    requires Inv(h) && IsRun(h, ops) && Counted(h, t0, v0, p, 0)
    requires forall op :: op in ops ==> !Reconfigures(op)
    ensures Counted(Run(h, ops), t0, v0, p, Advances(h, ops))
  {
    hide Inv, Counted, At, Apply, Counts, Allowed;
    if ops != [] {
      AdvancesCounted(h, t0, v0, p, Front(ops));
      RunInv(h, Front(ops));
      CountedStep(Run(h, Front(ops)), Last(ops), t0, v0, p, Advances(h, Front(ops)));
    }
  }

  lemma StartedCounted(h0: Hw)
    requires Inv(h0) && !h0.cnt.running && Allowed(h0, CounterStarts)
    ensures Counted(CounterStart(h0), h0.now, h0.cnt.value, h0.cnt.period, 0) && Inv(CounterStart(h0))
  {
    StepInv(h0, CounterStarts);
  }

  /** The counter refines division: started at time t0 with value v0 and period p, after n advances it
      reads v0 + n and is next due at t0 + (n + 1) * p; whenever it is not due, n is the number of whole
      periods since t0. */
  lemma CounterDivides(h0: Hw, h: Hw, ops: seq<Op>)
    requires Inv(h0) && !h0.cnt.running && Allowed(h0, CounterStarts) && h == CounterStart(h0)
    requires IsRun(h, ops) && forall op :: op in ops ==> !Reconfigures(op)
    ensures Counted(Run(h, ops), h0.now, h0.cnt.value, h0.cnt.period, Advances(h, ops))
    ensures Run(h, ops).now < Run(h, ops).cnt.timer ==>
      WholePeriods(Advances(h, ops), h0.now, h0.cnt.period, Run(h, ops).now)
  {
    StartedCounted(h0);
    AdvancesCounted(h, h0.now, h0.cnt.value, h0.cnt.period, ops);
    CountProducts(Advances(h, ops), h0.now, h0.cnt.period, Run(h, ops).now);
  }

  lemma CountProducts(n: nat, t0: nat, p: nat, now: nat)
    ensures At(t0, n, p) <= now < At(t0, n + 1, p) ==> WholePeriods(n, t0, p, now)
  {
    if At(t0, n, p) <= now < At(t0, n + 1, p) {
      AtDivides(t0, n, p, now);
    }
  }

  // ----- the counter's interrupt

  /** The event advances the counter to its target. */
  predicate ReachesTarget(h: Hw, op: Op) {
    Counts(h, op) && Add64(h.cnt.value, 1) == h.cnt.target
  }

  /** When the counter raises its line, and by nothing else: an event leaves the line pending that was not exactly if it
      advances the counter to its target. */
  lemma CounterIrqAtTarget(h: Hw)
    requires Inv(h) && Allowed(h, Head)
    ensures COUNTER_EVENT_IRQ in Event(h).irq.premask
       <==> COUNTER_EVENT_IRQ in h.irq.premask || ReachesTarget(h, Head)
  {
    if h.nextIndex == HWTIMER {
      TimerReachedTicks(Sleep(h).(inEvent := true));
    }
  }

  /** The times at which the counter raised its line. */
  function CounterIrqTimes(h: Hw, ops: seq<Op>): seq<u64> {
    if ops == [] then []
    else
      var g := Run(h, Front(ops));
      CounterIrqTimes(h, Front(ops)) + (if ReachesTarget(g, Last(ops)) then [Apply(g, Last(ops)).now] else [])
  }

  /** Modulo 2^64, counting on from v0 meets v0 + k first at the k-th step. */
  lemma FirstMeeting(v0: nat, n: nat, k: nat)
    requires 0 < n <= NEVER && 0 < k <= NEVER
    ensures (v0 + n) % (NEVER + 1) == (v0 + k) % (NEVER + 1) <==> n == k
  {
    var m := NEVER + 1;
    var a, b := (v0 + n) / m, (v0 + k) / m;
    assert v0 + n == a * m + (v0 + n) % m && v0 + k == b * m + (v0 + k) % m;
  }

  lemma CounterIrqStep(g: Hw, op: Op, t0: nat, v0: nat, p: nat, n: nat, k: nat)
    requires Inv(g) && Allowed(g, op) && !Reconfigures(op) && !op.CounterTarget? && Counted(g, t0, v0, p, n)
    requires 0 < k <= NEVER && n < NEVER && g.cnt.target == (v0 + k) % (NEVER + 1)
    ensures Apply(g, op).cnt.target == g.cnt.target
    ensures ReachesTarget(g, op) <==> Counts(g, op) && n + 1 == k
    ensures ReachesTarget(g, op) ==> Apply(g, op).now == At(t0, k, p)
  {
    CounterStep(g, op);
    ReadsNext(g.cnt.value, v0, n);
    FirstMeeting(v0, n + 1, k);
    TargetKept(g, op);
  }

  lemma TargetKept(g: Hw, op: Op)
    requires !op.CounterTarget?
    ensures Apply(g, op).cnt.target == g.cnt.target
  {
  }

  lemma {:induction false} CounterIrqsCounted(h: Hw, t0: nat, v0: nat, p: nat, k: nat, ops: seq<Op>)
    requires Inv(h) && IsRun(h, ops) && Counted(h, t0, v0, p, 0)
    requires forall op :: op in ops ==> !Reconfigures(op) && !op.CounterTarget?
    requires 0 < k <= NEVER && h.cnt.target == (v0 + k) % (NEVER + 1) && Advances(h, ops) <= NEVER
    ensures Run(h, ops).cnt.target == h.cnt.target
    ensures CounterIrqTimes(h, ops) == if Advances(h, ops) < k then [] else [At(t0, k, p)]
  {
    hide Inv, Counted, At, Apply, Counts, Allowed, ReachesTarget;
    if ops != [] {
      var front, op := Front(ops), Last(ops);
      assert op in ops && forall o :: o in front ==> o in ops;
      CounterIrqsCounted(h, t0, v0, p, k, front);
      RunInv(h, front);
      AdvancesCounted(h, t0, v0, p, front);
      TargetKept(Run(h, front), op);
      if Advances(h, front) < NEVER {
        CounterIrqStep(Run(h, front), op, t0, v0, p, Advances(h, front), k);
      } else {
        NoMoreAdvances(Run(h, front), op);
      }
    }
  }

  lemma NoMoreAdvances(g: Hw, op: Op)
    ensures !Counts(g, op) ==> !ReachesTarget(g, op)
  {
  }

  /** The counter interrupt comes when it is due: with the period p set, the target set k advances ahead, and started at
      time t0, the counter raises its line at exactly t0 + k * p, and at no other advance before its value has gone all
      the way round. */
  lemma CounterIrqOnTime(h0: Hw, p: u64, k: nat, h: Hw, ops: seq<Op>)
    requires Inv(h0) && !h0.cnt.running && h0.now + p <= NEVER && 0 < k <= NEVER
    requires h == CounterStart(Apply(Apply(h0, CounterPeriod(p)), CounterTarget((h0.cnt.value + k) % (NEVER + 1))))
    requires IsRun(h, ops) && forall op :: op in ops ==> !Reconfigures(op) && !op.CounterTarget?
    requires Advances(h, ops) <= NEVER
    ensures CounterIrqTimes(h, ops) == if Advances(h, ops) < k then [] else [h0.now + k * p]
  {
    hide Inv, Counted, At, IsRun, Run, Advances, CounterIrqTimes, Reconfigures;
    var target := (h0.cnt.value + k) % (NEVER + 1);
    var h1 := Apply(Apply(h0, CounterPeriod(p)), CounterTarget(target));
    SettingsMade(h0, p, target);
    StartedCounted(h1);
    TargetKept(h1, CounterStarts);
    CounterIrqsCounted(h, h0.now, h0.cnt.value, p, k, ops);
    AtIsProduct(h0.now, k, p);
  }

  /** The period and target set are those the counter then has; nothing else changes. */
  lemma SettingsMade(h: Hw, p: u64, target: u64)
    requires Inv(h)
    ensures var g := Apply(Apply(h, CounterPeriod(p)), CounterTarget(target));
      Inv(g) && g == h.(cnt := h.cnt.(period := p, target := target))
  {
  }

  /** From boot: with no start before, the counter raises its line k periods after its start. */
  lemma CounterIrqFromBoot(endOfTime: u64, before: seq<Op>, p: u64, k: u64, h: Hw, ops: seq<Op>)
    requires IsRun(Boot(endOfTime), before) && forall op :: op in before ==> !op.CounterStarts?
    requires var h0 := Run(Boot(endOfTime), before);
      h0.now + p <= NEVER && h == CounterStart(Apply(Apply(h0, CounterPeriod(p)), CounterTarget(k)))
    requires 0 < k
    requires IsRun(h, ops) && (forall op :: op in ops ==> !Reconfigures(op) && !op.CounterTarget?)
    requires Advances(h, ops) <= NEVER
    ensures CounterIrqTimes(h, ops)
         == if Advances(h, ops) < k then [] else [Run(Boot(endOfTime), before).now + k * p]
  {
    hide Inv, Counted, IsRun, Run, Advances, CounterIrqTimes, Reconfigures;
    BootInv(endOfTime);
    RunInv(Boot(endOfTime), before);
    StoppedKeepsValue(Boot(endOfTime), before);
    assert Boot(endOfTime).cnt.value == 0;
    CounterIrqOnTime(Run(Boot(endOfTime), before), p, k, h, ops);
  }

  /** A target set while the counter runs, k advances ahead, is met at the k-th advance from then. */
  lemma CounterIrqRetargeted(h0: Hw, k: nat, h: Hw, ops: seq<Op>)
    requires Inv(h0) && h0.cnt.running && h0.cnt.period <= h0.cnt.timer <= h0.now + h0.cnt.period && 0 < k <= NEVER
    requires h == Apply(h0, CounterTarget((h0.cnt.value + k) % (NEVER + 1)))
    requires IsRun(h, ops) && forall op :: op in ops ==> !Reconfigures(op) && !op.CounterTarget?
    requires Advances(h, ops) <= NEVER
    ensures CounterIrqTimes(h, ops)
         == if Advances(h, ops) < k then [] else [h0.cnt.timer + (k - 1) * h0.cnt.period]
  {
    hide IsRun, Run, Advances, CounterIrqTimes, Reconfigures;
    var p, t0 := h0.cnt.period, h0.cnt.timer - h0.cnt.period;
    StepInv(h0, CounterTarget((h0.cnt.value + k) % (NEVER + 1)));
    assert At(t0, 1, p) == h0.cnt.timer && At(t0, 0, p) == t0;
    CounterIrqsCounted(h, t0, h0.cnt.value, p, k, ops);
    AtIsProduct(t0, k, p);
    assert k * p == (k - 1) * p + p;
  }

  lemma StoppedStep(h: Hw, op: Op)
    requires Inv(h) && Allowed(h, op) && !op.CounterStarts? && !h.cnt.running
    ensures !Apply(h, op).cnt.running && Apply(h, op).cnt.value == h.cnt.value && !Counts(h, op)
  {
  }

  /** While it is stopped, no run changes the counter's value or raises its interrupt, and a start goes on from that
      value. */
  lemma {:induction false} StoppedKeepsValue(h: Hw, ops: seq<Op>)
    requires Inv(h) && IsRun(h, ops) && !h.cnt.running && forall op :: op in ops ==> !op.CounterStarts?
    ensures !Run(h, ops).cnt.running && Run(h, ops).cnt.value == h.cnt.value && CounterIrqTimes(h, ops) == []
    ensures CounterStart(Run(h, ops)).cnt.value == h.cnt.value
  {
    hide Inv, Apply, Allowed, Counts;
    if ops != [] {
      assert Last(ops) in ops && forall o :: o in Front(ops) ==> o in ops;
      StoppedKeepsValue(h, Front(ops));
      RunInv(h, Front(ops));
      StoppedStep(Run(h, Front(ops)), Last(ops));
    }
  }

  /** Stopping keeps the value whatever happens before the next start. */
  lemma CounterStopKeepsValue(h: Hw, ops: seq<Op>)
    requires Inv(h) && IsRun(CounterStop(h), ops) && forall op :: op in ops ==> !op.CounterStarts?
    ensures CounterStart(Run(CounterStop(h), ops)).cnt.value == h.cnt.value
    ensures CounterIrqTimes(CounterStop(h), ops) == []
  {
    StepInv(h, CounterStops);
    StoppedKeepsValue(CounterStop(h), ops);
  }
}
