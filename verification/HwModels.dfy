/** The hardware of the board (hw_models_top.c, timer_model.c, hw_counter.c, irq_ctrl.c) as one state,
    the step each of its functions makes, and runs of such steps.  The class in Board.dfy makes exactly
    these steps; HwRuns.dfy proves what every run keeps. */
module HwModels {
  import opened Sequences
  import opened IrqCtrl

  /** timer_model.c: the system tick and the one-shot awake timer behind one event time. */
  datatype Timer = Timer(next: u64, tick: u64, awake: u64, period: u64, silent: int)

  /** hw_counter.c */
  datatype Counter = Counter(timer: u64, running: bool, value: u64, target: u64, period: u64)

  /** Which of the three event times is the next one; NONE before the first search. */
  const HWTIMER: nat := 0
  const IRQCNT: nat := 1
  const HW_COUNTER: nat := 2
  const NONE: nat := 4

  datatype Hw = Hw(
    irq: Irq,
    tmr: Timer,
    cnt: Counter,
    now: u64,           // simulated time
    nextTime: u64,      // cached time of the next event
    nextIndex: nat,     // cached index of the next event
    inEvent: bool,      // the event loop is between an event and the search that follows it
    endOfTime: u64)

  function Min(a: u64, b: u64): u64 {
    if a < b then a else b
  }

  // ----- hw_models_top.c: the search for the next event

  function EarlierOf(i: nat, a: u64, j: nat, b: u64): (nat, u64) {
    if a > b then (j, b) else (i, a)
  }

  function FindNext(h: Hw): Hw {
    var (i, t) := EarlierOf(HWTIMER, h.tmr.next, IRQCNT, h.irq.timer);
    var (j, u) := EarlierOf(i, t, HW_COUNTER, h.cnt.timer);
    h.(nextIndex := j, nextTime := u)
  }

  // ----- irq_ctrl.c: raising by the hardware

  /** hw_irq_ctrl_set_irq: raise, and wake the CPU one delta cycle from now. */
  function SetIrq(h: Hw, irq: nat): Hw {
    var c := RaisePrefix(h.irq, irq);
    if Wakes(c) then FindNext(h.(irq := c.(timer := h.now))) else h.(irq := c)
  }

  // ----- timer_model.c

  function UpdateTimer(t: Timer): Timer {
    t.(next := Min(t.tick, t.awake))
  }

  function EnableTick(h: Hw, period: u64): Hw {
    FindNext(h.(tmr := UpdateTimer(h.tmr.(period := period, tick := Add64(h.now, period)))))
  }

  function WakeInTime(h: Hw, time: u64): Hw {
    if h.tmr.awake > time then FindNext(h.(tmr := UpdateTimer(h.tmr.(awake := time)))) else h
  }

  function AwakeReached(h: Hw): Hw {
    SetIrq(h.(tmr := UpdateTimer(h.tmr.(awake := NEVER))), PHONY_HARD_IRQ)
  }

  function TickReached(h: Hw): Hw {
    var t := UpdateTimer(h.tmr.(tick := Add64(h.tmr.tick, h.tmr.period)));
    if t.silent > 0 then h.(tmr := t.(silent := t.silent - 1)) else SetIrq(h.(tmr := t), TIMER_TICK_IRQ)
  }

  function TimerReached(h: Hw): Hw {
    var now := h.tmr.next;
    var g := if h.tmr.awake == now then AwakeReached(h) else h;
    if g.tmr.tick == now then TickReached(g) else g
  }

  // ----- hw_counter.c

  function CounterTriggered(h: Hw): Hw {
    if !h.cnt.running then
      h.(cnt := h.cnt.(timer := NEVER))
    else
      var k := h.cnt.(timer := Add64(h.now, h.cnt.period), value := Add64(h.cnt.value, 1));
      if k.value == k.target then SetIrq(h.(cnt := k), COUNTER_EVENT_IRQ) else h.(cnt := k)
  }

  function CounterStart(h: Hw): Hw {
    if h.cnt.running then h
    else FindNext(h.(cnt := h.cnt.(running := true, timer := Add64(h.now, h.cnt.period))))
  }

  function CounterStop(h: Hw): Hw {
    FindNext(h.(cnt := h.cnt.(running := false, timer := NEVER)))
  }

  // ----- hw_models_top.c: one event

  /** hwm_sleep_until_next_timer; a cached time in the past leaves the clock where it is. */
  function Sleep(h: Hw): Hw {
    h.(now := if h.nextTime >= h.now then h.nextTime else h.now)
  }

  /** hwm_one_event up to, and not including, the search for the next event.  Software that an event
      wakes runs before that search. */
  function Event(h: Hw): Hw {
    var g := Sleep(h).(inEvent := true);
    if h.nextIndex == HWTIMER then TimerReached(g)
    else if h.nextIndex == IRQCNT then g.(irq := RaisedNow(g.irq.(timer := NEVER)))
    else if h.nextIndex == HW_COUNTER then CounterTriggered(g)
    else g
  }

  /** The event wakes the CPU. */
  predicate EventWakes(h: Hw) {
    h.nextIndex == IRQCNT && Wakes(h.irq)
  }

  // ----- steps

  datatype Op =
    | Raise(irq: nat)                 // hw_irq_ctrl_raise_im_from_sw, up to running the handler
    | SetPending(irq: nat)            // hw_irq_ctrl_set_irq
    | RaiseNow(irq: nat)              // hw_irq_ctrl_raise_im
    | EnableLine(irq: nat)
    | DisableLine(irq: nat)
    | ClearLine(irq: nat, taken: bool)  // taken: cleared because its routine is about to run
    | ClearEverything
    | ClearEnabled
    | Lock(on: bool)
    | Prio(irq: nat, prio: nat)
    | CurPrio(cur: int)
    | Tick(period: u64)
    | Silence(n: int)
    | WakeAt(time: u64)
    | CounterStarts
    | CounterStops
    | CounterPeriod(per: u64)
    | CounterTarget(target: u64)
    | Head                            // an event
    | Tail                            // the search after it

  function Apply(h: Hw, op: Op): Hw
  {
    match op
    case Raise(irq) => h.(irq := RaisePrefix(h.irq, irq))
    case SetPending(irq) => SetIrq(h, irq)
    case RaiseNow(irq) => h.(irq := RaisedNow(RaisePrefix(h.irq, irq)))
    case EnableLine(irq) => h.(irq := Enable(h.irq, irq))
    case DisableLine(irq) => h.(irq := Disable(h.irq, irq))
    case ClearLine(irq, _) => h.(irq := Clear(h.irq, irq))
    case ClearEverything => h.(irq := ClearAll(h.irq))
    case ClearEnabled => h.(irq := ClearAllEnabled(h.irq))
    case Lock(on) => h.(irq := h.irq.(locked := on))
    case Prio(irq, p) => h.(irq := SetPrio(h.irq, irq, p))
    case CurPrio(p) => h.(irq := h.irq.(cur := p))
    case Tick(period) => EnableTick(h, period)
    case Silence(n) => h.(tmr := h.tmr.(silent := n))
    case WakeAt(time) => WakeInTime(h, time)
    case CounterStarts => CounterStart(h)
    case CounterStops => CounterStop(h)
    case CounterPeriod(p) => h.(cnt := h.cnt.(period := p))
    case CounterTarget(t) => h.(cnt := h.cnt.(target := t))
    case Head => Event(h)
    case Tail => FindNext(h).(inEvent := false)
  }

  lemma TimedCalls(h: Hw, period: u64)
    ensures Apply(h, Tick(period)) == EnableTick(h, period)
    ensures Apply(h, CounterStarts) == CounterStart(h) && Apply(h, CounterStops) == CounterStop(h)
  {
  }

  /** What a caller must see to.  Line numbers index the controller's tables; times asked for are not in
      the past; no sum of times passes the largest uint64_t; the event loop runs only while something is
      armed, and alternates events with searches. */
  predicate Allowed(h: Hw, op: Op) {
    match op
    case EnableLine(irq) => irq < N_IRQS
    case DisableLine(irq) => irq < N_IRQS
    case ClearLine(irq, _) => irq < N_IRQS
    case Prio(irq, _) => irq < N_IRQS == |h.irq.prio|
    case Tick(period) => h.now + period <= NEVER
    case WakeAt(time) => h.now <= time
    case CounterStarts => h.cnt.running || h.now + h.cnt.period <= NEVER
    case Head =>
      && !h.inEvent
      && h.nextTime < NEVER
      && (h.nextIndex == HWTIMER && h.tmr.tick == h.nextTime ==> h.nextTime + h.tmr.period <= NEVER)
      && (h.nextIndex == HW_COUNTER && h.cnt.running ==> h.nextTime + h.cnt.period <= NEVER)
    case Tail => h.inEvent
    case _ => true
  }

  /** The state hwm_init leaves, from zeroed statics. */
  function Boot(endOfTime: u64): Hw {
    var irq := Irq({}, {}, {}, false, false, seq(N_IRQS, _ => 255), NO_PRIO, NEVER);
    var tmr := UpdateTimer(Timer(0, NEVER, NEVER, 0, 0));
    var cnt := Counter(NEVER, false, 0, NEVER, NEVER);
    FindNext(Hw(irq, tmr, cnt, 0, 0, NONE, false, endOfTime))
  }

  // ----- runs

  /** The state after a run of steps. */
  function Run(h: Hw, ops: seq<Op>): Hw {
    if ops == [] then h else Apply(Run(h, Front(ops)), Last(ops))
  }

  /** Each step of the run is allowed where it happens. */
  predicate IsRun(h: Hw, ops: seq<Op>) {
    ops == [] || (IsRun(h, Front(ops)) && Allowed(Run(h, Front(ops)), Last(ops)))
  }

  lemma RunAppend(h: Hw, ops: seq<Op>, op: Op)
    ensures Run(h, ops + [op]) == Apply(Run(h, ops), op)
    ensures IsRun(h, ops + [op]) <==> IsRun(h, ops) && Allowed(Run(h, ops), op)
  {
    assert Front(ops + [op]) == ops;
  }
}
