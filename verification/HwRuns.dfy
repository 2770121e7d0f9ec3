/** What every run of the hardware keeps, over any interleaving of software calls and events. */
module HwRuns {
  import opened Sequences
  import opened IrqCtrl
  import opened HwModels

  // ----- the invariant

  /** The event time of one entry of Timer_list. */
  function EventTime(h: Hw, i: nat): u64 {
    if i == HWTIMER then h.tmr.next else if i == IRQCNT then h.irq.timer else h.cnt.timer
  }

  /** No armed timer lies in the past. */
  predicate NothingOverdue(h: Hw) {
    h.now <= h.tmr.tick && h.now <= h.tmr.awake && h.now <= h.irq.timer && h.now <= h.cnt.timer
  }

  /** The cached next event is the lowest-numbered of the earliest of the four timers. */
  predicate CacheExact(h: Hw) {
    && h.nextIndex < 3
    && h.nextTime == EventTime(h, h.nextIndex)
    && h.nextTime <= h.tmr.tick && h.nextTime <= h.tmr.awake
    && h.nextTime <= h.irq.timer && h.nextTime <= h.cnt.timer
    && (h.nextIndex > HWTIMER ==> h.nextTime < EventTime(h, HWTIMER))
    && (h.nextIndex > IRQCNT ==> h.nextTime < EventTime(h, IRQCNT))
  }

  ghost predicate Sound(h: Hw) {
    && Latched(h.irq)
    && NothingOverdue(h)
    && h.tmr.next == Min(h.tmr.tick, h.tmr.awake)
    && (h.irq.timer == NEVER || h.irq.timer == h.now)
    && (h.tmr.tick == NEVER || h.tmr.tick <= h.now + h.tmr.period)
  }

  ghost predicate Inv(h: Hw) {
    Sound(h) && (!h.inEvent ==> CacheExact(h))
  }

  lemma InvLatched(h: Hw)
    requires Inv(h)
    ensures Latched(h.irq)
  {
  }

  lemma BootInv(endOfTime: u64)
    ensures Inv(Boot(endOfTime))
  {
  }

  lemma FindNextExact(h: Hw)
    requires Sound(h)
    ensures Sound(FindNext(h)) && CacheExact(FindNext(h))
  {
  }

  lemma SetIrqSound(h: Hw, irq: nat)
    requires Sound(h)
    ensures Sound(SetIrq(h, irq))
    ensures CacheExact(h) ==> CacheExact(SetIrq(h, irq))
  {
    var c := RaisePrefix(h.irq, irq);
    assert Latched(c);
    FindNextExact(h.(irq := c.(timer := h.now)));
  }

  lemma EventSound(h: Hw)
    requires Inv(h) && Allowed(h, Head)
    ensures Sound(Event(h)) && Event(h).inEvent && Event(h).now == h.nextTime
  {
    var g := Sleep(h).(inEvent := true);
    assert Sound(g);
    if h.nextIndex == HWTIMER {
      TimerSound(g);
    } else if h.nextIndex == HW_COUNTER {
      CounterSound(g);
    }
  }

  lemma CounterSound(g: Hw)
    requires Sound(g) && (g.cnt.running ==> g.now + g.cnt.period <= NEVER)
    ensures Sound(CounterTriggered(g))
    ensures CounterTriggered(g).inEvent == g.inEvent && CounterTriggered(g).now == g.now
  {
    if g.cnt.running {
      var k := g.cnt.(timer := Add64(g.now, g.cnt.period), value := Add64(g.cnt.value, 1));
      SetIrqSound(g.(cnt := k), COUNTER_EVENT_IRQ);
    }
  }

  lemma AwakeSound(g: Hw)
    requires Sound(g)
    ensures Sound(AwakeReached(g)) && AwakeReached(g).tmr == UpdateTimer(g.tmr.(awake := NEVER))
  {
    SetIrqSound(g.(tmr := UpdateTimer(g.tmr.(awake := NEVER))), PHONY_HARD_IRQ);
  }

  lemma TickSound(g: Hw)
    requires Sound(g) && g.tmr.tick == g.now && g.now + g.tmr.period <= NEVER
    ensures Sound(TickReached(g))
  {
    var t := UpdateTimer(g.tmr.(tick := Add64(g.tmr.tick, g.tmr.period)));
    assert t.tick == g.now + g.tmr.period;
    SetIrqSound(g.(tmr := t), TIMER_TICK_IRQ);
  }

  lemma TimerSound(g: Hw)
    requires Sound(g) && g.tmr.next == g.now
    requires g.tmr.tick == g.now ==> g.now + g.tmr.period <= NEVER
    ensures Sound(TimerReached(g))
    ensures TimerReached(g).inEvent == g.inEvent && TimerReached(g).now == g.now
  {
    if g.tmr.awake == g.now {
      AwakeSound(g);
    }
    var b := if g.tmr.awake == g.now then AwakeReached(g) else g;
    if b.tmr.tick == g.now {
      TickSound(b);
    }
  }

  /** The calls that touch nothing but the controller's latches, lock and priorities. */
  predicate LatchOp(op: Op) {
    || op.Raise? || op.RaiseNow? || op.EnableLine? || op.DisableLine? || op.ClearLine? || op.ClearEverything?
    || op.ClearEnabled? || op.Lock? || op.Prio? || op.CurPrio?
  }

  lemma LatchStep(h: Hw, op: Op)
    requires Latched(h.irq) && Allowed(h, op) && LatchOp(op)
    ensures Latched(Apply(h, op).irq) && Apply(h, op) == h.(irq := Apply(h, op).irq)
    ensures Apply(h, op).irq.timer == h.irq.timer
  {
  }

  lemma SoftwareStepInv(h: Hw, op: Op)
    requires Inv(h) && Allowed(h, op) && !op.Head?
    ensures Inv(Apply(h, op)) && h.now == Apply(h, op).now
  {
    if LatchOp(op) {
      LatchStep(h, op);
    } else if op.SetPending? {
      hide FindNext, Latched;
      SetIrqSound(h, op.irq);
      SetIrqKeeps(h, op.irq);
    } else if op.Tick? || op.WakeAt? {
      TimerRequestInv(h, op);
    } else if op.CounterStarts? {
      CounterStartSound(h);
      CounterStartKeeps(h);
    } else if op.CounterStops? {
      FindNextExact(h.(cnt := h.cnt.(running := false, timer := NEVER)));
    } else if op.Tail? {
      FindNextExact(h);
    }
  }

  lemma SetIrqKeeps(h: Hw, irq: nat)
    ensures SetIrq(h, irq).now == h.now && SetIrq(h, irq).inEvent == h.inEvent
  {
  }

  lemma CounterStartKeeps(h: Hw)
    ensures CounterStart(h).now == h.now
  {
  }

  lemma TimerRequestInv(h: Hw, op: Op)
    requires Inv(h) && Allowed(h, op) && (op.Tick? || op.WakeAt?)
    ensures Inv(Apply(h, op)) && h.now == Apply(h, op).now
  {
    match op {
      case Tick(p) => FindNextExact(h.(tmr := UpdateTimer(h.tmr.(period := p, tick := Add64(h.now, p)))));
      case WakeAt(time) => FindNextExact(h.(tmr := UpdateTimer(h.tmr.(awake := time))));
    }
  }

  lemma StepInv(h: Hw, op: Op)
    requires Inv(h) && Allowed(h, op)
    ensures Inv(Apply(h, op)) && h.now <= Apply(h, op).now
  {
    if op.Head? {
      EventSound(h);
    } else {
      SoftwareStepInv(h, op);
    }
  }

  /** Starting the counter leaves no timer in the past exactly when it was running already or the first
      trigger time fits in a uint64_t: an unconfigured counter, whose period is NEVER, breaks the clock
      from the first microsecond on. */
  lemma CounterStartSound(h: Hw)
    requires Sound(h)
    ensures Sound(CounterStart(h)) <==> h.cnt.running || h.now + h.cnt.period <= NEVER
    ensures Inv(h) && Sound(CounterStart(h)) ==> Inv(CounterStart(h))
  {
    var g := h.(cnt := h.cnt.(running := true, timer := Add64(h.now, h.cnt.period)));
    if !h.cnt.running && h.now + h.cnt.period <= NEVER {
      FindNextExact(g);
    }
  }

  /** A run in which it does: one tick of a microsecond happens, and then the unconfigured counter, started,
      is due in the past. */
  lemma UnconfiguredCounterIsOverdue(endOfTime: u64) returns (ops: seq<Op>)
    ensures IsRun(Boot(endOfTime), ops)
    ensures var h := CounterStart(Run(Boot(endOfTime), ops)); h.nextTime < h.now
  {
    hide EnableTick, Boot, Inv, CounterStart, FindNext, Event;
    var b := Boot(endOfTime);
    ops := [] + [Tick(1)] + [Head] + [Tail];
    RunAppend(b, [], Tick(1));
    RunAppend(b, [] + [Tick(1)], Head);
    RunAppend(b, [] + [Tick(1)] + [Head], Tail);
    TickAtBoot(endOfTime);
    TimerEventKeepsCounter(EnableTick(b, 1));
    TailKeepsCounter(Event(EnableTick(b, 1)));
    StartedUnconfigured(Run(b, ops));
  }

  lemma TickAtBoot(endOfTime: u64)
    ensures Allowed(Boot(endOfTime), Tick(1))
    ensures var h := EnableTick(Boot(endOfTime), 1);
      && Inv(h) && Allowed(h, Head) && h.nextIndex == HWTIMER && h.nextTime == 1
      && !h.cnt.running && h.cnt.period == NEVER
  {
    BootInv(endOfTime);
    StepInv(Boot(endOfTime), Tick(1));
  }

  lemma TimerEventKeepsCounter(h: Hw)
    requires Inv(h) && Allowed(h, Head) && h.nextIndex == HWTIMER
    ensures Event(h).now == h.nextTime && Event(h).cnt == h.cnt && Event(h).inEvent
  {
  }

  lemma TailKeepsCounter(h: Hw)
    ensures Apply(h, Tail).now == h.now && Apply(h, Tail).cnt == h.cnt
  {
  }

  lemma StartedUnconfigured(h: Hw)
    requires !h.cnt.running && h.cnt.period == NEVER && h.now == 1
    ensures CounterStart(h).nextTime < CounterStart(h).now
  {
  }

  /** Time never skips an event: in every run, at every moment, no armed timer lies in the past; between
      events the cached next event is the earliest of all four timers, lowest index first; time never
      goes back; and the latches of the interrupt controller agree. */
  lemma {:induction false} RunInv(h: Hw, ops: seq<Op>)
    requires Inv(h) && IsRun(h, ops)
    ensures Inv(Run(h, ops)) && h.now <= Run(h, ops).now
  {
    if ops != [] {
      RunInv(h, Front(ops));
      StepInv(Run(h, Front(ops)), Last(ops));
    }
  }

  /** The two "corrupted" branches of the event loop are never taken: in every run since boot the cached time is
      not in the past, and the cached index is that of one of the three timers. */
  lemma NeverCorrupted(endOfTime: u64, ops: seq<Op>)
    requires IsRun(Boot(endOfTime), ops) && !Run(Boot(endOfTime), ops).inEvent
    ensures var h := Run(Boot(endOfTime), ops); h.now <= h.nextTime && h.nextIndex <= HW_COUNTER
  {
    BootInv(endOfTime);
    RunInv(Boot(endOfTime), ops);
  }

  /** Even with a corrupted cached time, as after such a start, the clock never goes back. */
  lemma ClockNeverBack(h: Hw)
    ensures h.now <= Sleep(h).now && (Sleep(h).now == h.nextTime <==> h.now <= h.nextTime)
  {
  }

  // ----- only finitely many events happen at one instant

  /** Every armed repetition has a positive period. */
  predicate PositivePeriods(h: Hw) {
    (h.tmr.tick != NEVER ==> h.tmr.period > 0) && (h.cnt.running ==> h.cnt.period > 0)
  }

  /** Weight of the events due now: an event of the timers or of the counter may arm one event of the
      interrupt controller at the same instant. */
  function Due(h: Hw): nat {
    (if h.tmr.next == h.now then 2 else 0)
    + (if h.cnt.timer == h.now then 2 else 0)
    + (if h.irq.timer == h.now then 1 else 0)
  }

  /** Software asks for an event at the present instant, or for a repetition of period 0. */
  predicate Rearms(h: Hw, op: Op) {
    match op
    case SetPending(irq) => Wakes(RaisePrefix(h.irq, irq))
    case Tick(period) => period == 0
    case WakeAt(time) => time <= h.now
    case CounterStarts => h.cnt.period == 0
    case CounterPeriod(p) => p == 0
    case _ => false
  }

  /** An event moves time forward, or uses up weight at the present instant. */
  lemma EventProgress(h: Hw)
    requires Inv(h) && Allowed(h, Head) && PositivePeriods(h)
    ensures h.now < Event(h).now || Due(Event(h)) < Due(h)
    ensures PositivePeriods(Event(h))
  {
    EventSound(h);
    if h.nextIndex == HWTIMER {
      TimerProgress(Sleep(h).(inEvent := true));
    }
  }

  lemma TimerProgress(g: Hw)
    requires Sound(g) && g.tmr.next == g.now < NEVER && PositivePeriods(g)
    requires g.tmr.tick == g.now ==> g.now + g.tmr.period <= NEVER
    ensures var r := TimerReached(g);
      r.tmr.next > g.now && r.cnt == g.cnt && r.now == g.now && PositivePeriods(r)
  {
    hide RaisePrefix, Wakes, Latched;
  }

  function Heads(ops: seq<Op>): nat {
    if ops == [] then 0 else Heads(Front(ops)) + (if Last(ops).Head? then 1 else 0)
  }

  predicate NeverRearms(h: Hw, ops: seq<Op>) {
    ops == [] || (NeverRearms(h, Front(ops)) && !Rearms(Run(h, Front(ops)), Last(ops)))
  }

  lemma DueStep(h: Hw, op: Op)
    requires Inv(h) && Allowed(h, op) && PositivePeriods(h) && !Rearms(h, op)
    ensures PositivePeriods(Apply(h, op))
    ensures h.now < Apply(h, op).now || Due(Apply(h, op)) + (if op.Head? then 1 else 0) <= Due(h)
  {
    if op.Head? {
      hide Event, Due;
      EventProgress(h);
    } else if LatchOp(op) {
      hide PositivePeriods, Inv;
      LatchStep(h, op);
      SamePeriods(h, Apply(h, op));
    } else if op.Tick? || op.Silence? || op.WakeAt? {
      TimerCallDue(h, op);
    } else if op.SetPending? || op.Tail? {
      hide Inv, RaisePrefix, Wakes;
    } else {
      CounterCallDue(h, op);
    }
  }

  lemma TimerCallDue(h: Hw, op: Op)
    requires Inv(h) && Allowed(h, op) && PositivePeriods(h) && !Rearms(h, op)
    requires op.Tick? || op.Silence? || op.WakeAt?
    ensures PositivePeriods(Apply(h, op)) && Due(Apply(h, op)) <= Due(h)
  {
    hide Latched, CacheExact, EventTime;
  }

  lemma CounterCallDue(h: Hw, op: Op)
    requires Inv(h) && Allowed(h, op) && PositivePeriods(h) && !Rearms(h, op)
    requires op.CounterStarts? || op.CounterStops? || op.CounterPeriod? || op.CounterTarget?
    ensures PositivePeriods(Apply(h, op)) && Due(Apply(h, op)) <= Due(h)
  {
    hide Latched, CacheExact, EventTime;
  }

  lemma SamePeriods(h: Hw, g: Hw)
    requires g == h.(irq := g.irq)
    ensures PositivePeriods(g) == PositivePeriods(h)
  {
  }

  /** No Zeno behaviour: however software and events interleave, as long as software does not ask for
      events at the present instant, at most five events happen before time moves on. */
  lemma {:induction false} EventsPerInstant(h: Hw, ops: seq<Op>)
    requires Inv(h) && IsRun(h, ops) && PositivePeriods(h) && NeverRearms(h, ops)
    ensures PositivePeriods(Run(h, ops))
    ensures Run(h, ops).now == h.now ==> Heads(ops) + Due(Run(h, ops)) <= Due(h) <= 5
  {
    if ops != [] {
      EventsPerInstant(h, Front(ops));
      RunInv(h, Front(ops));
      StepInv(Run(h, Front(ops)), Last(ops));
      DueStep(Run(h, Front(ops)), Last(ops));
    }
  }

  /** Nor over any stretch of time: at most six events for each microsecond that goes by, and five more. */
  lemma {:induction false} EventsOverTime(h: Hw, ops: seq<Op>)
    requires Inv(h) && IsRun(h, ops) && PositivePeriods(h) && NeverRearms(h, ops)
    ensures PositivePeriods(Run(h, ops))
    ensures Heads(ops) + Due(Run(h, ops)) <= Due(h) + 6 * (Run(h, ops).now - h.now)
  {
    if ops != [] {
      EventsOverTime(h, Front(ops));
      RunInv(h, Front(ops));
      StepInv(Run(h, Front(ops)), Last(ops));
      DueStep(Run(h, Front(ops)), Last(ops));
    }
  }

  // ----- runs one after the other

  lemma {:induction false} RunConcat(h: Hw, ops: seq<Op>, more: seq<Op>)
    ensures Run(h, ops + more) == Run(Run(h, ops), more)
    ensures IsRun(h, ops + more) <==> IsRun(h, ops) && IsRun(Run(h, ops), more)
    ensures NeverRearms(h, ops + more) <==> NeverRearms(h, ops) && NeverRearms(Run(h, ops), more)
    ensures Heads(ops + more) == Heads(ops) + Heads(more)
  {
    hide Apply, Allowed, Rearms;
    if more == [] {
      assert ops + more == ops;
    } else {
      RunConcat(h, ops, Front(more));
      assert Front(ops + more) == ops + Front(more);
    }
  }

  /** The CPU is about to be woken at the present instant. */
  predicate WakeIsNext(h: Hw) {
    !h.inEvent && !h.irq.locked && h.nextIndex == IRQCNT && h.nextTime == h.irq.timer == h.now < NEVER
  }

  /** Software woken now that asks, with interrupts unlocked, for an interrupt one delta cycle later is woken
      again at the same instant. */
  lemma WokenAgain(h: Hw, irq: nat)
    requires Inv(h) && WakeIsNext(h)
    ensures var g := Event(h); Allowed(h, Head) && Inv(SetIrq(g, irq)) && SetIrq(g, irq).inEvent
    ensures var g := Apply(SetIrq(Event(h), irq), Tail); Inv(g) && WakeIsNext(g) && g.now == h.now
  {
    StepInv(h, Head);
    SoftwareStepInv(Event(h), SetPending(irq));
    SoftwareStepInv(SetIrq(Event(h), irq), Tail);
  }

  lemma HeadsAppend(ops: seq<Op>, op: Op)
    ensures Heads(ops + [op]) == Heads(ops) + (if op.Head? then 1 else 0)
  {
    FrontLast(ops, op);
  }

  /** The condition is needed: if software does that each time, any number of events happens before time moves on. */
  lemma {:induction false} EndlessEvents(h: Hw, irq: nat, n: nat) returns (ops: seq<Op>)
    requires Inv(h) && WakeIsNext(h)
    ensures IsRun(h, ops) && Heads(ops) == n && Run(h, ops).now == h.now
    ensures Inv(Run(h, ops)) && WakeIsNext(Run(h, ops))
  {
    ops := [];
    if n > 0 {
      hide Inv, Event, WakeIsNext, FindNext;
      ops := EndlessEvents(h, irq, n - 1);
      var g := Run(h, ops);
      WokenAgain(g, irq);
      RunAppend(h, ops, Head);
      RunAppend(h, ops + [Head], SetPending(irq));
      RunAppend(h, ops + [Head] + [SetPending(irq)], Tail);
      HeadsAppend(ops, Head);
      HeadsAppend(ops + [Head], SetPending(irq));
      HeadsAppend(ops + [Head] + [SetPending(irq)], Tail);
      ops := ops + [Head] + [SetPending(irq)] + [Tail];
    }
  }

  // ----- the shared awake timer

  /** The step wakes the CPU. */
  predicate WakesCpu(h: Hw, op: Op) {
    || (op.Head? && EventWakes(h))
    || (op.RaiseNow? && Wakes(RaisePrefix(h.irq, op.irq)))
  }

  predicate Asleep(h: Hw, ops: seq<Op>) {
    ops == [] || (Asleep(h, Front(ops)) && !WakesCpu(Run(h, Front(ops)), Last(ops)))
  }

  /** A wake is on its way no later than T: the awake timer is set for it, or has just raised the
      lock-ignoring interrupt. */
  predicate WakeOwed(h: Hw, T: u64) {
    h.tmr.awake <= T || (h.irq.lockIgnore && h.irq.timer <= T)
  }

  lemma WakeOwedStep(h: Hw, op: Op, T: u64)
    requires Inv(h) && Allowed(h, op) && WakeOwed(h, T) && T < NEVER
    ensures Apply(h, op).now <= T
    ensures WakesCpu(h, op) || WakeOwed(Apply(h, op), T)
  {
    if op.Head? {
      EventSound(h);
    } else {
      SoftwareStepInv(h, op);
    }
  }

  /** A request to be woken at T holds whatever software and hardware do, whatever else asks for earlier
      or later wakes, and even with interrupts locked throughout: until the CPU is woken, time does not
      pass T; in particular the step that wakes it happens at T or before. */
  lemma {:induction false} WokenInTime(h: Hw, T: u64, ops: seq<Op>)
    requires Inv(h) && h.now <= T < NEVER && ops != []
    requires IsRun(WakeInTime(h, T), ops) && Asleep(WakeInTime(h, T), Front(ops))
    ensures Run(WakeInTime(h, T), ops).now <= T
  {
    StepInv(h, WakeAt(T));
    OwedUntilWoken(WakeInTime(h, T), T, Front(ops));
    RunInv(WakeInTime(h, T), Front(ops));
    WakeOwedStep(Run(WakeInTime(h, T), Front(ops)), Last(ops), T);
  }

  lemma {:induction false} OwedUntilWoken(h: Hw, T: u64, ops: seq<Op>)
    requires Inv(h) && WakeOwed(h, T) && T < NEVER
    requires IsRun(h, ops) && Asleep(h, ops)
    ensures WakeOwed(Run(h, ops), T)
  {
    if ops != [] {
      OwedUntilWoken(h, T, Front(ops));
      RunInv(h, Front(ops));
      WakeOwedStep(Run(h, Front(ops)), Last(ops), T);
    }
  }

  // ----- what an event leaves as it was

  /** The periods, and an armed tick. */
  predicate SameSetup(h0: Hw, h1: Hw) {
    && h1.tmr.period == h0.tmr.period && h1.cnt.period == h0.cnt.period && h1.endOfTime == h0.endOfTime
    && (h0.tmr.tick != NEVER ==> h1.tmr.tick != NEVER)
  }

  lemma SetIrqSetup(h: Hw, irq: nat)
    ensures var g := SetIrq(h, irq);
      && g.tmr == h.tmr && g.cnt == h.cnt && g.endOfTime == h.endOfTime && g.now == h.now
      && g.irq.cur == h.irq.cur && g.irq.prio == h.irq.prio && g.irq.locked == h.irq.locked
  {
  }

  lemma HeadSetup(h: Hw)
    requires Inv(h) && Allowed(h, Head) && h.nextTime + h.tmr.period < NEVER
    ensures var g := Event(h);
      && SameSetup(h, g) && g.irq.cur == h.irq.cur && g.irq.prio == h.irq.prio && g.irq.locked == h.irq.locked
      && g.cnt.running == h.cnt.running
  {
    hide SetIrq, FindNext, Latched;
    var g := Sleep(h).(inEvent := true);
    if h.nextIndex == HWTIMER {
      SetIrqSetup(g.(tmr := UpdateTimer(g.tmr.(awake := NEVER))), PHONY_HARD_IRQ);
      var b := if g.tmr.awake == g.tmr.next then AwakeReached(g) else g;
      SetIrqSetup(b.(tmr := UpdateTimer(b.tmr.(tick := Add64(b.tmr.tick, b.tmr.period)))), TIMER_TICK_IRQ);
    } else if h.nextIndex == HW_COUNTER {
      var k := g.cnt.(timer := Add64(g.now, g.cnt.period), value := Add64(g.cnt.value, 1));
      SetIrqSetup(g.(cnt := k), COUNTER_EVENT_IRQ);
    }
  }

  // ----- while the CPU is halted

  /** A run of the hardware alone. */
  predicate EventsOnly(ops: seq<Op>) {
    forall op :: op in ops ==> op.Head? || op.Tail?
  }

  /** Left to itself, the hardware wakes the CPU no later than T. */
  predicate WakeComing(h: Hw, T: u64) {
    WakeOwed(h, T) || (!h.irq.locked && h.irq.timer <= T)
  }

  lemma WakeComingStep(h: Hw, op: Op, T: u64)
    requires Inv(h) && Allowed(h, op) && WakeComing(h, T) && T < NEVER && (op.Head? || op.Tail?)
    ensures Apply(h, op).now <= T
    ensures WakesCpu(h, op) || WakeComing(Apply(h, op), T)
  {
    if WakeOwed(h, T) {
      WakeOwedStep(h, op, T);
    } else if op.Head? {
      hide RaisePrefix;
      EventSound(h);
    } else {
      SoftwareStepInv(h, op);
    }
  }

  /** With interrupts unlocked and the controller's wake due by T, the hardware by itself lets no time pass T before
      the CPU is woken. */
  lemma {:induction false} WokenByEvents(h: Hw, T: u64, ops: seq<Op>)
    requires Inv(h) && WakeComing(h, T) && T < NEVER && h.now <= T
    requires IsRun(h, ops) && EventsOnly(ops) && (ops != [] ==> Asleep(h, Front(ops)))
    ensures Run(h, ops).now <= T
    ensures Asleep(h, ops) ==> WakeComing(Run(h, ops), T)
  {
    hide WakeComing, WakesCpu, Allowed, Apply, Inv;
    if ops != [] {
      var front := Front(ops);
      assert Asleep(h, front) && (front != [] ==> Asleep(h, Front(front)));
      assert forall op :: op in front ==> op in ops;
      assert Last(ops) in ops;
      WokenByEvents(h, T, front);
      RunInv(h, front);
      WakeComingStep(Run(h, front), Last(ops), T);
    }
  }

  lemma {:induction false} EventsNeverRearm(h: Hw, ops: seq<Op>)
    requires EventsOnly(ops)
    ensures NeverRearms(h, ops)
  {
    if ops != [] {
      assert forall op :: op in Front(ops) ==> op in ops;
      assert Last(ops) in ops;
      EventsNeverRearm(h, Front(ops));
    }
  }

  // ----- waking in spite of the lock

  /** The step raises the lock-ignoring interrupt. */
  predicate RaisesHard(h: Hw, op: Op) {
    match op
    case Raise(irq) => irq == PHONY_HARD_IRQ
    case SetPending(irq) => irq == PHONY_HARD_IRQ
    case RaiseNow(irq) => irq == PHONY_HARD_IRQ
    case Head => h.nextIndex == HWTIMER && h.tmr.awake == h.tmr.next
    case _ => false
  }

  function HardRaises(h: Hw, ops: seq<Op>): nat {
    if ops == [] then 0
    else HardRaises(h, Front(ops)) + (if RaisesHard(Run(h, Front(ops)), Last(ops)) then 1 else 0)
  }

  /** How often the CPU was woken with interrupts locked. */
  function LockedWakes(h: Hw, ops: seq<Op>): nat {
    if ops == [] then 0
    else
      var g := Run(h, Front(ops));
      LockedWakes(h, Front(ops)) + (if g.irq.locked && WakesCpu(g, Last(ops)) then 1 else 0)
  }

  function Flag(h: Hw): nat {
    if h.irq.lockIgnore then 1 else 0
  }

  lemma LockedWakeStep(h: Hw, op: Op)
    requires Inv(h) && Allowed(h, op)
    ensures Flag(Apply(h, op)) + (if h.irq.locked && WakesCpu(h, op) then 1 else 0)
         <= Flag(h) + (if RaisesHard(h, op) then 1 else 0)
  {
    if LatchOp(op) {
      LatchStep(h, op);
    }
  }

  /** The lock holds: with interrupts locked the CPU is woken at most once for each lock-ignoring interrupt,
      whatever else is raised. */
  lemma {:induction false} LockHolds(h: Hw, ops: seq<Op>)
    requires Inv(h) && IsRun(h, ops)
    ensures LockedWakes(h, ops) + Flag(Run(h, ops)) <= HardRaises(h, ops) + Flag(h)
  {
    hide Inv, Apply, Allowed, RaisesHard, WakesCpu, Flag;
    if ops != [] {
      LockHolds(h, Front(ops));
      RunInv(h, Front(ops));
      LockedWakeStep(Run(h, Front(ops)), Last(ops));
    }
  }

  lemma LockedStep(h: Hw, op: Op)
    requires Inv(h) && Allowed(h, op) && !RaisesHard(h, op) && op != Lock(false)
    requires h.irq.locked && !h.irq.lockIgnore && h.irq.timer == NEVER
    ensures var g := Apply(h, op); g.irq.locked && !g.irq.lockIgnore && g.irq.timer == NEVER
  {
    if LatchOp(op) {
      LatchStep(h, op);
    }
  }

  /** While interrupts are locked no raise schedules a wake, but for the lock-ignoring one. */
  lemma {:induction false} LockedSchedulesNothing(h: Hw, ops: seq<Op>)
    requires Inv(h) && IsRun(h, ops) && HardRaises(h, ops) == 0 && Lock(false) !in ops
    requires h.irq.locked && !h.irq.lockIgnore && h.irq.timer == NEVER
    ensures var g := Run(h, ops); g.irq.locked && !g.irq.lockIgnore && g.irq.timer == NEVER
  {
    hide Inv, Apply, Allowed, RaisesHard;
    if ops != [] {
      assert Last(ops) in ops && forall op :: op in Front(ops) ==> op in ops;
      LockedSchedulesNothing(h, Front(ops));
      RunInv(h, Front(ops));
      LockedStep(Run(h, Front(ops)), Last(ops));
    }
  }

  /** With interrupts unlocked, or with the lock-ignoring interrupt, any raise by hw_irq_ctrl_set_irq, even of a
      disabled line, wakes the CPU before time goes by. */
  lemma RaisedIsWoken(h: Hw, irq: nat, events: seq<Op>)
    requires Inv(h) && h.now < NEVER && (!h.irq.locked || irq == PHONY_HARD_IRQ)
    requires var g := Apply(h, SetPending(irq));
      IsRun(g, events) && EventsOnly(events) && (events != [] ==> Asleep(g, Front(events)))
    ensures Run(Apply(h, SetPending(irq)), events).now == h.now
  {
    hide IsRun, Asleep, Run;
    var g := Apply(h, SetPending(irq));
    SoftwareStepInv(h, SetPending(irq));
    SetIrqSchedules(h, irq);
    WokenByEvents(g, h.now, events);
    RunInv(g, events);
  }

  lemma SetIrqSchedules(h: Hw, irq: nat)
    requires !h.irq.locked || irq == PHONY_HARD_IRQ
    ensures WakeComing(SetIrq(h, irq), h.now)
  {
  }
}
